/**
 * `compareVersions` of `src/components/PrivacyNotice.tsx` and the upgrade /
 * downgrade flags derived from it. A version is split on `.` and each component
 * read with `Number(...)`; a component that is not a plain decimal numeral, and a
 * missing component, counts as 0.
 */
module Versions {
  import opened Wrappers
  import opened Text

  /** `Number(part) || 0` for one component. */
  function ComponentValue(part: string): nat {
    if part != [] && AllDigits(part) then DecimalValue(part) else 0
  }

  /** `v.split('.').map(Number)`, with `|| 0` applied. */
  function Components(v: string): (c: seq<nat>)
    ensures |c| == |Split(v, '.')| >= 1
  {
    var parts := Split(v, '.');
    seq(|parts|, i requires 0 <= i < |parts| => ComponentValue(parts[i]))
  }

  /** `p[i] || 0`: the component at `i`, 0 past the end. */
  function At(p: seq<nat>, i: int): nat {
    if 0 <= i < |p| then p[i] else 0
  }

  function Max(a: int, b: int): int {
    if a < b then b else a
  }

  /** The loop of `compareVersions` from index `i` on, as a recursive function. */
  function CompareFrom(pa: seq<nat>, pb: seq<nat>, i: nat): int
    decreases Max(|pa|, |pb|) - i
  {
    if i >= Max(|pa|, |pb|) then 0
    else if At(pa, i) > At(pb, i) then 1
    else if At(pa, i) < At(pb, i) then -1
    else CompareFrom(pa, pb, i + 1)
  }

  /** `!a || !b`: null, undefined or the empty string. */
  predicate Missing(v: Option<string>) {
    v.None? || v.value == []
  }

  /** What `compareVersions(a, b)` returns. */
  function Compare(a: Option<string>, b: Option<string>): int {
    if Missing(a) || Missing(b) then 0 else CompareFrom(Components(a.value), Components(b.value), 0)
  }

  /** `compareVersions(a, b)`: the index loop with early returns. */
  method CompareVersions(a: Option<string>, b: Option<string>) returns (r: int)
    ensures r == Compare(a, b)
    ensures r in {-1, 0, 1}
    ensures Missing(a) || Missing(b) ==> r == 0
  {
    CompareRange(if a.Some? then a.value else "", if b.Some? then b.value else "", 0);
    if a.None? || a.value == [] || b.None? || b.value == [] {
      return 0;
    }
    var pa := Components(a.value);
    var pb := Components(b.value);
    var n := Max(|pa|, |pb|);
    for i := 0 to n
      invariant CompareFrom(pa, pb, i) == CompareFrom(pa, pb, 0)
    {
      var na := At(pa, i);
      var nb := At(pb, i);
      if na > nb {
        return 1;
      }
      if na < nb {
        return -1;
      }
    }
    return 0;
  }

  /** The comparison is one of -1, 0 and 1. */
  lemma {:induction false} CompareRange(a: string, b: string, i: nat)
    ensures CompareFrom(Components(a), Components(b), i) in {-1, 0, 1}
    decreases Max(|Components(a)|, |Components(b)|) - i
  {
    var pa, pb := Components(a), Components(b);
    if i < Max(|pa|, |pb|) && At(pa, i) == At(pb, i) {
      CompareRange(a, b, i + 1);
    }
  }

  /** Position `k` is the first at which the (zero-padded) components differ. */
  predicate FirstDifference(pa: seq<nat>, pb: seq<nat>, k: nat) {
    && k < Max(|pa|, |pb|)
    && At(pa, k) != At(pb, k)
    && forall j :: 0 <= j < k ==> At(pa, j) == At(pb, j)
  }

  /**
   * The result is the sign of the first differing component, scanning left to
   * right from `i`, and 0 when no component from `i` on differs.
   */
  lemma {:induction false} CompareFromSign(pa: seq<nat>, pb: seq<nat>, i: nat)
    ensures CompareFrom(pa, pb, i) == 0 <==> forall j :: i <= j < Max(|pa|, |pb|) ==> At(pa, j) == At(pb, j)
    ensures CompareFrom(pa, pb, i) != 0 ==>
      exists k :: i <= k < Max(|pa|, |pb|) && At(pa, k) != At(pb, k)
        && (forall j :: i <= j < k ==> At(pa, j) == At(pb, j))
        && CompareFrom(pa, pb, i) == (if At(pa, k) > At(pb, k) then 1 else -1)
    decreases Max(|pa|, |pb|) - i
  {
    if i < Max(|pa|, |pb|) {
      CompareFromSign(pa, pb, i + 1);
      if At(pa, i) != At(pb, i) {
        assert i <= i < Max(|pa|, |pb|) && At(pa, i) != At(pb, i);
      } else if CompareFrom(pa, pb, i) != 0 {
        var k :| i + 1 <= k < Max(|pa|, |pb|) && At(pa, k) != At(pb, k)
          && (forall j :: i + 1 <= j < k ==> At(pa, j) == At(pb, j))
          && CompareFrom(pa, pb, i + 1) == (if At(pa, k) > At(pb, k) then 1 else -1);
        assert forall j :: i <= j < k ==> At(pa, j) == At(pb, j);
      }
    }
  }

  /** For two present versions the result is the sign of the component at their first difference. */
  lemma CompareFirstDifference(a: string, b: string, k: nat)
    requires a != [] && b != []
    requires FirstDifference(Components(a), Components(b), k)
    ensures Compare(Some(a), Some(b)) == (if At(Components(a), k) > At(Components(b), k) then 1 else -1)
  {
    var pa, pb := Components(a), Components(b);
    CompareFromSign(pa, pb, 0);
    assert CompareFrom(pa, pb, 0) != 0;
    var k' :| 0 <= k' < Max(|pa|, |pb|) && At(pa, k') != At(pb, k')
      && (forall j :: 0 <= j < k' ==> At(pa, j) == At(pb, j))
      && CompareFrom(pa, pb, 0) == (if At(pa, k') > At(pb, k') then 1 else -1);
    assert k' == k;
  }

  /** Every version compares equal to itself. */
  lemma CompareReflexive(a: Option<string>)
    ensures Compare(a, a) == 0
  {
    if !Missing(a) {
      var p := Components(a.value);
      CompareFromSign(p, p, 0);
    }
  }

  lemma {:induction false} CompareFromAntisymmetric(pa: seq<nat>, pb: seq<nat>, i: nat)
    ensures CompareFrom(pa, pb, i) == -CompareFrom(pb, pa, i)
    decreases Max(|pa|, |pb|) - i
  {
    assert Max(|pa|, |pb|) == Max(|pb|, |pa|);
    if i < Max(|pa|, |pb|) && At(pa, i) == At(pb, i) {
      CompareFromAntisymmetric(pa, pb, i + 1);
    }
  }

  /** Swapping the arguments negates the result. */
  lemma CompareAntisymmetric(a: Option<string>, b: Option<string>)
    ensures Compare(a, b) == -Compare(b, a)
  {
    if !Missing(a) && !Missing(b) {
      CompareFromAntisymmetric(Components(a.value), Components(b.value), 0);
    }
  }

  /** Equal components after zero padding give 0: trailing zero components do not matter. */
  lemma PaddedEqual(a: string, b: string)
    requires a != [] && b != []
    requires forall j :: 0 <= j < Max(|Components(a)|, |Components(b)|) ==> At(Components(a), j) == At(Components(b), j)
    ensures Compare(Some(a), Some(b)) == 0
  {
    CompareFromSign(Components(a), Components(b), 0);
  }

  /** The components of a version made of two dot-free parts. */
  lemma ComponentsOfTwo(x: string, y: string)
    requires '.' !in x && '.' !in y
    ensures Components(x + ['.'] + y) == [ComponentValue(x), ComponentValue(y)]
  {
    SplitAtFirst(x, y, '.');
    SplitNoSeparator(y, '.');
  }

  /** The components of a version made of three dot-free parts. */
  lemma ComponentsOfThree(x: string, y: string, z: string)
    requires '.' !in x && '.' !in y && '.' !in z
    ensures Components(x + ['.'] + y + ['.'] + z) == [ComponentValue(x), ComponentValue(y), ComponentValue(z)]
  {
    var v := x + ['.'] + y + ['.'] + z;
    assert v == x + ['.'] + (y + ['.'] + z);
    SplitAtFirst(x, y + ['.'] + z, '.');
    SplitAtFirst(y, z, '.');
    SplitNoSeparator(z, '.');
    assert Split(v, '.') == [x, y, z];
  }

  /** `"1.0"` and `"1.0.0"` compare equal. */
  lemma OnePointZero()
    ensures Compare(Some("1.0"), Some("1.0.0")) == 0
  {
    ComponentsOfTwo("1", "0");
    ComponentsOfThree("1", "0", "0");
    assert "1.0" == "1" + ['.'] + "0";
    assert "1.0.0" == "1" + ['.'] + "0" + ['.'] + "0";
    assert ComponentValue("1") == 1 && ComponentValue("0") == 0;
    PaddedEqual("1.0", "1.0.0");
  }

  /** A component that is not a numeral reads as 0: `"1.x"` equals `"1.0"`. */
  lemma NonNumericIsZero()
    ensures Compare(Some("1.x"), Some("1.0")) == 0
  {
    ComponentsOfTwo("1", "x");
    ComponentsOfTwo("1", "0");
    assert "1.x" == "1" + ['.'] + "x";
    assert "1.0" == "1" + ['.'] + "0";
    assert !IsDigit('x');
    assert ComponentValue("x") == 0;
    PaddedEqual("1.x", "1.0");
  }

  // ---------------------------------------------------------------- upgrade / downgrade

  /** `isUpgrade = isUpdate && compareVersions(current, previous) > 0`. */
  predicate IsUpgrade(isUpdate: bool, current: Option<string>, previous: Option<string>) {
    isUpdate && Compare(current, previous) > 0
  }

  /** `isDowngrade = isUpdate && compareVersions(current, previous) < 0`. */
  predicate IsDowngrade(isUpdate: bool, current: Option<string>, previous: Option<string>) {
    isUpdate && Compare(current, previous) < 0
  }

  /** The notice is never both an upgrade and a downgrade, and neither when it is not an update. */
  lemma UpgradeDowngradeExclusive(isUpdate: bool, current: Option<string>, previous: Option<string>)
    ensures !(IsUpgrade(isUpdate, current, previous) && IsDowngrade(isUpdate, current, previous))
    ensures !isUpdate ==> !IsUpgrade(isUpdate, current, previous) && !IsDowngrade(isUpdate, current, previous)
    ensures IsUpgrade(isUpdate, current, previous) <==> IsDowngrade(isUpdate, previous, current)
  {
    CompareAntisymmetric(current, previous);
  }

  /** `currentVersion || currentAppVersion`. */
  function EffectiveVersion(currentVersion: Option<string>, appVersion: string): (v: string)
    ensures currentVersion.Some? && currentVersion.value != [] ==> v == currentVersion.value
    ensures Missing(currentVersion) ==> v == appVersion
  {
    if Missing(currentVersion) then appVersion else currentVersion.value
  }
}
