/**
 * FunctionMetadataNameComparer: orders function metadata by name, ignoring
 * case; a missing metadata object or name compares equal to anything.
 */
module FunctionNames {
  import opened Common

  datatype FunctionMetadata = FunctionMetadata(name: Option<string>)

  /** The name when both the object and its name are present. */
  predicate HasName(x: Option<FunctionMetadata>)
  {
    x.Some? && x.value.name.Some?
  }

  /** Compare(x, y) */
  function Compare(x: Option<FunctionMetadata>, y: Option<FunctionMetadata>): (r: int)
    ensures !HasName(x) || !HasName(y) ==> r == 0
    ensures HasName(x) && HasName(y) ==> (r == 0 <==> EqualsIgnoreCase(x.value.name.value, y.value.name.value))
  {
    if x.None? || y.None? || x.value.name.None? || y.value.name.None? then 0
    else
      CompareIgnoreCaseZero(x.value.name.value, y.value.name.value);
      CompareIgnoreCase(x.value.name.value, y.value.name.value)
  }

  /** The ordinal case-insensitive comparison is zero exactly on names equal up to case. */
  lemma {:induction false} CompareIgnoreCaseZero(a: string, b: string)
    ensures CompareIgnoreCase(a, b) == 0 <==> EqualsIgnoreCase(a, b)
    decreases |a|
  {
    if a == [] || b == [] {
    } else {
      CompareIgnoreCaseZero(a[1..], b[1..]);
      assert ToUpper(a) == [UpperChar(a[0])] + ToUpper(a[1..]);
      assert ToUpper(b) == [UpperChar(b[0])] + ToUpper(b[1..]);
      if UpperChar(a[0]) == UpperChar(b[0]) && ToUpper(a) == ToUpper(b) {
        assert ToUpper(a)[1..] == ToUpper(a[1..]);
        assert ToUpper(b)[1..] == ToUpper(b[1..]);
      }
    }
  }

  /** Swapping the arguments negates the comparison. */
  lemma {:induction false} CompareIgnoreCaseAntisymmetric(a: string, b: string)
    ensures CompareIgnoreCase(b, a) == -CompareIgnoreCase(a, b)
    decreases |a|
  {
    if a != [] && b != [] && UpperChar(a[0]) == UpperChar(b[0]) {
      CompareIgnoreCaseAntisymmetric(a[1..], b[1..]);
    }
  }

  /** "Comes before" is transitive on names. */
  lemma {:induction false} CompareIgnoreCaseTransitive(a: string, b: string, c: string)
    requires CompareIgnoreCase(a, b) < 0 && CompareIgnoreCase(b, c) < 0
    ensures CompareIgnoreCase(a, c) < 0
    decreases |a|
  {
    if a != [] && b != [] && c != [] && UpperChar(a[0]) == UpperChar(b[0]) && UpperChar(b[0]) == UpperChar(c[0]) {
      CompareIgnoreCaseTransitive(a[1..], b[1..], c[1..]);
    }
  }

  /** The comparer is antisymmetric on metadata as well: Compare(y, x) == -Compare(x, y). */
  lemma CompareAntisymmetric(x: Option<FunctionMetadata>, y: Option<FunctionMetadata>)
    ensures Compare(y, x) == -Compare(x, y)
  {
    if HasName(x) && HasName(y) {
      CompareIgnoreCaseAntisymmetric(x.value.name.value, y.value.name.value);
    }
  }

  /**
   * A nameless entry compares equal to every name, so "equal" is not
   * transitive once one is present: "a" and "b" both equal it but differ.
   */
  lemma NamelessEqualsEverything()
    ensures var a := Some(FunctionMetadata(Some("a")));
            var b := Some(FunctionMetadata(Some("b")));
            var n := Some(FunctionMetadata(None));
            Compare(a, n) == 0 && Compare(n, b) == 0 && Compare(a, b) != 0
  {
  }

  /** The order the comparer tests sort into: "1" < "2" < "3" < "4". */
  lemma SortedNamesExample()
    ensures forall i, j :: 0 <= i < j < 4 ==>
              Compare(Some(FunctionMetadata(Some(["1234"[i]]))), Some(FunctionMetadata(Some(["1234"[j]])))) < 0
  {
  }
}
