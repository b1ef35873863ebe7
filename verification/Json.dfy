/**
  JSON values as the audit ledger compares them. Integers and decimals are separate
  constructors because the decoder keeps them apart; the comparison does not.
 */
module Json {

  datatype Json =
    | Null
    | Bool(flag: bool)
    | Integer(i: int)
    | Decimal(d: real)
    | Text(text: string)
    | Array(items: seq<Json>)
    | Object(fields: map<string, Json>)

  predicate IsNumber(j: Json) {
    j.Integer? || j.Decimal?
  }

  function NumberOf(j: Json): real
    requires IsNumber(j)
  {
    if j.Integer? then j.i as real else j.d
  }

  /** Replay equality; booleans are tested before numbers, as booleans are numbers to the source's language. */
  predicate SemanticallyEqual(left: Json, right: Json) {
    if left.Bool? || right.Bool? then
      left.Bool? && right.Bool? && left.flag == right.flag
    else if IsNumber(left) || IsNumber(right) then
      IsNumber(left) && IsNumber(right) && NumberOf(left) == NumberOf(right)
    else if left.Object? || right.Object? then
      && left.Object? && right.Object? && left.fields.Keys == right.fields.Keys
      && forall key | key in left.fields :: SemanticallyEqual(left.fields[key], right.fields[key])
    else if left.Array? || right.Array? then
      && left.Array? && right.Array? && |left.items| == |right.items|
      && forall i | 0 <= i < |left.items| :: SemanticallyEqual(left.items[i], right.items[i])
    else
      left == right
  }

  /** The one representative of a value: every number becomes a decimal. */
  function Normalise(j: Json): Json {
    match j
    case Integer(i) => Decimal(i as real)
    case Array(items) => Array(seq(|items|, i requires 0 <= i < |items| => Normalise(items[i])))
    case Object(fields) => Object(map key | key in fields :: Normalise(fields[key]))
    case _ => j
  }

  lemma NormaliseItem(items: seq<Json>, i: nat)
    requires i < |items|
    ensures Normalise(Array(items)).Array? && |Normalise(Array(items)).items| == |items|
    ensures Normalise(Array(items)).items[i] == Normalise(items[i])
  {
  }

  lemma {:induction false} EqualityNormalises(a: Json, b: Json)
    requires SemanticallyEqual(a, b)
    ensures Normalise(a) == Normalise(b)
  {
    if a.Object? {
      forall key | key in a.fields ensures Normalise(a.fields[key]) == Normalise(b.fields[key]) {
        EqualityNormalises(a.fields[key], b.fields[key]);
      }
    } else if a.Array? {
      forall i | 0 <= i < |a.items| ensures Normalise(a.items[i]) == Normalise(b.items[i]) {
        EqualityNormalises(a.items[i], b.items[i]);
      }
    }
  }

  lemma {:induction false} NormalisedEquality(a: Json, b: Json)
    requires Normalise(a) == Normalise(b)
    ensures SemanticallyEqual(a, b)
  {
    if a.Object? {
      assert a.fields.Keys == Normalise(a).fields.Keys == Normalise(b).fields.Keys == b.fields.Keys;
      forall key | key in a.fields ensures SemanticallyEqual(a.fields[key], b.fields[key]) {
        assert Normalise(a).fields[key] == Normalise(b).fields[key];
        NormalisedEquality(a.fields[key], b.fields[key]);
      }
    } else if a.Array? {
      assert |a.items| == |Normalise(a).items| == |Normalise(b).items| == |b.items|;
      forall i | 0 <= i < |a.items| ensures SemanticallyEqual(a.items[i], b.items[i]) {
        assert Normalise(a).items[i] == Normalise(b).items[i];
        NormalisedEquality(a.items[i], b.items[i]);
      }
    }
  }

  /** Replay equality is equality of representatives. */
  lemma EqualityIsNormalisedEquality(a: Json, b: Json)
    ensures SemanticallyEqual(a, b) <==> Normalise(a) == Normalise(b)
  {
    if SemanticallyEqual(a, b) { EqualityNormalises(a, b); }
    if Normalise(a) == Normalise(b) { NormalisedEquality(a, b); }
  }

  lemma EqualityIsAnEquivalence(a: Json, b: Json, c: Json)
    ensures SemanticallyEqual(a, a)
    ensures SemanticallyEqual(a, b) ==> SemanticallyEqual(b, a)
    ensures SemanticallyEqual(a, b) && SemanticallyEqual(b, c) ==> SemanticallyEqual(a, c)
    ensures SemanticallyEqual(a, b) && a.Bool? ==> a == b
  {
    EqualityIsNormalisedEquality(a, a);
    EqualityIsNormalisedEquality(a, b);
    EqualityIsNormalisedEquality(b, a);
    EqualityIsNormalisedEquality(b, c);
    EqualityIsNormalisedEquality(a, c);
  }
}
