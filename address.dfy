/** The address value object of the identity document response. */
module Addresses {
  import opened Wrappers
  import opened Text

  datatype Address = Address(
    city: Option<string>,
    country: Option<string>,
    postalCode: Option<string>,
    state: Option<string>,
    street: Option<string>)

  /** A field that PHP's `empty()` does not reject: present, and neither "" nor "0". */
  predicate Filled(field: Option<string>) {
    field.Some? && !PhpEmpty(field.value)
  }

  /** The fields in formatting order: street, city, state, postal code, country. */
  function Fields(a: Address): (fs: seq<Option<string>>)
    ensures |fs| == 5
    ensures fs[0] == a.street && fs[1] == a.city && fs[2] == a.state && fs[3] == a.postalCode && fs[4] == a.country
  {
    [a.street, a.city, a.state, a.postalCode, a.country]
  }

  /** `array_filter` without a callback: the filled values, in order. */
  function FilledParts(fields: seq<Option<string>>): (parts: seq<string>)
    ensures |parts| <= |fields|
    ensures forall i :: 0 <= i < |parts| ==> !PhpEmpty(parts[i])
    ensures forall x :: x in parts <==> Some(x) in fields && !PhpEmpty(x)
  {
    if fields == [] then []
    else if Filled(fields[0]) then [fields[0].value] + FilledParts(fields[1..])
    else FilledParts(fields[1..])
  }

  /** Nothing survives the filter exactly when no field is filled. */
  lemma {:induction false} FilledPartsEmpty(fields: seq<Option<string>>)
    ensures FilledParts(fields) == [] <==> forall i :: 0 <= i < |fields| ==> !Filled(fields[i])
  {
    if fields != [] {
      FilledPartsEmpty(fields[1..]);
      assert forall i :: 1 <= i < |fields| ==> fields[i] == fields[1..][i - 1];
    }
  }

  /** Every field survives the filter exactly when every field is filled. */
  lemma {:induction false} FilledPartsAll(fields: seq<Option<string>>)
    ensures |FilledParts(fields)| == |fields| <==> forall i :: 0 <= i < |fields| ==> Filled(fields[i])
  {
    if fields != [] {
      FilledPartsAll(fields[1..]);
      assert forall i :: 1 <= i < |fields| ==> fields[i] == fields[1..][i - 1];
    }
  }

  /** Joining parts that are never empty gives "" only for no parts at all. */
  lemma {:induction false} JoinNonEmpty(sep: string, parts: seq<string>)
    requires forall i :: 0 <= i < |parts| ==> !PhpEmpty(parts[i])
    ensures Join(sep, parts) == "" <==> parts == []
    ensures parts != [] ==> StartsWith(Join(sep, parts), parts[0])
  {
    if |parts| > 1 {
      var r := parts[0] + sep + Join(sep, parts[1..]);
      assert r[..|parts[0]|] == parts[0];
    }
  }

  /** `hasData`: at least one field is filled. */
  predicate HasData(a: Address) {
    Filled(a.city) || Filled(a.country) || Filled(a.postalCode) || Filled(a.state) || Filled(a.street)
  }

  /** `isComplete`: every field is filled. */
  predicate IsComplete(a: Address)
    ensures IsComplete(a) ==> HasData(a)
  {
    Filled(a.street) && Filled(a.city) && Filled(a.state) && Filled(a.postalCode) && Filled(a.country)
  }

  /** An address has data exactly when some field survives the filter. */
  lemma {:induction false} HasDataIffSomePart(a: Address)
    ensures HasData(a) <==> FilledParts(Fields(a)) != []
  {
    FilledPartsEmpty(Fields(a));
  }

  /** An address is complete exactly when all five fields survive the filter. */
  lemma {:induction false} CompleteIffAllParts(a: Address)
    ensures IsComplete(a) <==> |FilledParts(Fields(a))| == 5
  {
    FilledPartsAll(Fields(a));
  }

  /** `getFormattedAddress`: the filled fields joined by ", ". */
  function FormattedAddress(a: Address): (r: string)
    ensures r == "" <==> !HasData(a)
    ensures Filled(a.street) ==> StartsWith(r, a.street.value)
    ensures r == Join(", ", FilledParts(Fields(a)))
  {
    var parts := FilledParts(Fields(a));
    HasDataIffSomePart(a);
    JoinNonEmpty(", ", parts);
    Join(", ", parts)
  }

  /** A complete address lists all five fields, street first and country last. */
  lemma FormattedComplete(a: Address)
    requires IsComplete(a)
    ensures FormattedAddress(a)
      == a.street.value + ", " + a.city.value + ", " + a.state.value + ", " + a.postalCode.value + ", " + a.country.value
  {
    var s1, s2, s3, s4, s5 := a.street.value, a.city.value, a.state.value, a.postalCode.value, a.country.value;
    var fs := Fields(a);
    assert FilledParts(fs) == [s1, s2, s3, s4, s5] by {
      FilledPartsValues(fs);
    }
    var parts := [s1, s2, s3, s4, s5];
    var j4 := s4 + ", " + s5;
    assert Join(", ", parts[3..]) == j4;
    var j3 := s3 + ", " + j4;
    assert Join(", ", parts[2..]) == j3;
    var j2 := s2 + ", " + j3;
    assert Join(", ", parts[1..]) == j2;
    assert Join(", ", parts) == s1 + ", " + j2;
    ConcatAssoc5(s1, s2, s3, s4, s5, ", ");
  }

  /** When every field is filled, the filter keeps each value, in order. */
  lemma {:induction false} FilledPartsValues(fields: seq<Option<string>>)
    requires forall i :: 0 <= i < |fields| ==> Filled(fields[i])
    ensures FilledParts(fields) == seq(|fields|, i requires 0 <= i < |fields| => fields[i].GetOr(""))
  {
    if fields != [] {
      FilledPartsValues(fields[1..]);
    }
  }

  lemma ConcatAssoc5(s1: string, s2: string, s3: string, s4: string, s5: string, sep: string)
    ensures s1 + sep + (s2 + sep + (s3 + sep + (s4 + sep + s5))) == s1 + sep + s2 + sep + s3 + sep + s4 + sep + s5
  {
  }

  /**
   * `getCompletionPercentage`: the share of filled fields out of five, as a percentage;
   * rounding to one decimal leaves the multiples of 20 unchanged.
   */
  function CompletionPercentage(a: Address): (p: int)
    ensures p % 20 == 0 && 0 <= p <= 100
    ensures p == 100 <==> IsComplete(a)
    ensures p == 0 <==> !HasData(a)
  {
    var fs := Fields(a);
    CompleteIffAllParts(a);
    HasDataIffSomePart(a);
    |FilledParts(fs)| * 20
  }
}
