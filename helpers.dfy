/**
 * The random draws and the reference-number generator of the helpers module.
 * `Math.random()` is an input: a value of `Random`, a real in [0, 1); a UUID
 * is an input too, given as its five hexadecimal groups.
 */
module Helpers {
  import opened Common
  import opened Strings
  import opened Config

  /** A value `Math.random()` can return. */
  newtype Random = r: real | 0.0 <= r < 1.0

  /** `Math.floor(r * n)`. */
  function Scaled(r: Random, n: int): int {
    ((r as real) * (n as real)).Floor
  }

  lemma ScaledBelow(r: Random, n: int)
    requires n >= 1
    ensures 0 <= Scaled(r, n) < n
  {
    var x := (r as real) * (n as real);
    assert 0.0 <= x < n as real;
  }

  lemma MulNonPositive(a: real, b: real)
    requires a >= 0.0 && b <= 0.0
    ensures a * b <= 0.0
  {
  }

  lemma ScaledAbove(r: Random, m: int)
    requires m <= 0
    ensures m <= Scaled(r, m) <= 0
  {
    MulNonPositive(1.0 - r as real, m as real);
    MulNonPositive(r as real, m as real);
  }

  /** `getRandomElement(arr)`: `arr[Math.floor(r * arr.length)]`, undefined for an empty array. */
  function GetRandomElement<T>(s: seq<T>, r: Random): (e: Option<T>)
    ensures e.None? <==> |s| == 0
    ensures e.Some? ==> e.value in s
  {
    if |s| == 0 then None
    else
      ScaledBelow(r, |s|);
      Some(s[Scaled(r, |s|)])
  }

  /** Every element of a non-empty array is returned for some draw. */
  lemma GetRandomElementReaches<T>(s: seq<T>, k: nat)
    requires k < |s|
    ensures exists r: Random :: GetRandomElement(s, r) == Some(s[k])
  {
    var r := (k as real / |s| as real) as Random;
    assert (r as real) * (|s| as real) == k as real;
    assert GetRandomElement(s, r) == Some(s[k]);
  }

  /** `getRandomNumber(min, max)`: `Math.floor(r * (max - min + 1)) + min`. */
  function GetRandomNumber(min: int, max: int, r: Random): (n: int)
    ensures min <= max ==> min <= n <= max
    ensures max < min ==> max < n <= min
  {
    if min <= max then
      ScaledBelow(r, max - min + 1);
      Scaled(r, max - min + 1) + min
    else
      ScaledAbove(r, max - min + 1);
      Scaled(r, max - min + 1) + min
  }

  /** Every integer of a well-formed range is drawn for some `r`. */
  lemma GetRandomNumberReaches(min: int, max: int, k: int)
    requires min <= k <= max
    ensures exists r: Random :: GetRandomNumber(min, max, r) == k
  {
    var n := max - min + 1;
    var r := ((k - min) as real / n as real) as Random;
    assert (r as real) * (n as real) == (k - min) as real;
    assert GetRandomNumber(min, max, r) == k;
  }

  predicate IsHex(s: string) {
    forall i :: 0 <= i < |s| ==> '0' <= s[i] <= '9' || 'a' <= s[i] <= 'f'
  }

  /** The result of `uuidv4()`, as its five hexadecimal groups. */
  datatype Uuid = Uuid(g1: string, g2: string, g3: string, g4: string, g5: string) {
    predicate Valid() {
      |g1| == 8 && |g2| == 4 && |g3| == 4 && |g4| == 4 && |g5| == 12
      && IsHex(g1) && IsHex(g2) && IsHex(g3) && IsHex(g4) && IsHex(g5)
    }

    /** The canonical text `xxxxxxxx-xxxx-xxxx-xxxx-xxxxxxxxxxxx`. */
    function Text(): string {
      g1 + "-" + g2 + "-" + g3 + "-" + g4 + "-" + g5
    }
  }

  lemma HexHasNoDash(g: string)
    requires IsHex(g)
    ensures '-' !in g
  {
  }

  /** Removing dashes from `x + "-" + y` keeps a dash-free `x` and cleans `y`. */
  lemma RemoveAfterGroup(x: string, y: string)
    requires '-' !in x
    ensures Remove(x + "-" + y, '-') == x + Remove(y, '-')
  {
    var t := "-" + y;
    assert x + "-" + y == x + t;
    assert Remove(t, '-') == Remove(y, '-') by {
      assert t[0] == '-' && t[1..] == y;
    }
    assert Remove(x + t, '-') == x + Remove(t, '-') by {
      RemoveAppend(x, t, '-');
    }
  }

  lemma UuidDigits(u: Uuid)
    requires u.Valid()
    ensures Remove(u.Text(), '-') == u.g1 + u.g2 + u.g3 + u.g4 + u.g5
    ensures |Remove(u.Text(), '-')| == 32
  {
    HexHasNoDash(u.g1); HexHasNoDash(u.g2); HexHasNoDash(u.g3);
    HexHasNoDash(u.g4); HexHasNoDash(u.g5);
    var t5 := u.g5;
    var t4 := u.g4 + "-" + t5;
    var t3 := u.g3 + "-" + t4;
    var t2 := u.g2 + "-" + t3;
    DashJoinNested(u.g1, u.g2, u.g3, u.g4, u.g5);
    RemoveAfterGroup(u.g4, t5);
    RemoveAfterGroup(u.g3, t4);
    RemoveAfterGroup(u.g2, t3);
    RemoveAfterGroup(u.g1, t2);
    ConcatNested(u.g1, u.g2, u.g3, u.g4, u.g5);
  }

  lemma DashJoinNested(a: string, b: string, c: string, d: string, e: string)
    ensures a + "-" + b + "-" + c + "-" + d + "-" + e == a + "-" + (b + "-" + (c + "-" + (d + "-" + e)))
  {
    var de := d + "-" + e;
    var cde := c + "-" + de;
    assert a + "-" + b + "-" + c + "-" + d + "-" + e == a + "-" + b + "-" + c + "-" + de;
    assert a + "-" + b + "-" + c + "-" + de == a + "-" + b + "-" + cde;
  }

  lemma ConcatNested(a: string, b: string, c: string, d: string, e: string)
    ensures a + (b + (c + (d + e))) == a + b + c + d + e
  {
  }

  /**
   * `s.substring(0, end)`: `end` is clamped to `[0, |s|]`; an undefined `end`
   * (None) means the whole string.
   */
  function PrefixUpTo(s: string, end: Option<int>): (r: string)
    ensures StartsWith(s, r)
    ensures end.None? ==> r == s
    ensures end.Some? ==> |r| == if end.value < 0 then 0 else if end.value > |s| then |s| else end.value
  {
    match end
    case None => s
    case Some(e) => if e < 0 then [] else if e > |s| then s else s[..e]
  }

  /**
   * `generateRefNo(config)`: for the `random` policy, the dash-less UUID cut
   * to a length drawn from `referenceNumber.length`, behind the prefix if one
   * is set; otherwise the fixed `referenceNumber.refno`.
   */
  function GenerateRefNo(policy: RefPolicy, uuid: Uuid, r: Random): (ref: string)
    ensures policy.kind != "random" ==> ref == policy.refno
    ensures policy.kind == "random" ==>
              && StartsWith(ref, policy.prefix)
              && StartsWith(Remove(uuid.Text(), '-'), ref[|policy.prefix|..])
              && (policy.lengths == [] ==> ref == policy.prefix + Remove(uuid.Text(), '-'))
  {
    if policy.kind == "random" then
      var digits := Remove(uuid.Text(), '-');
      var refNo := PrefixUpTo(digits, GetRandomElement(policy.lengths, r));
      assert (policy.prefix + refNo)[|policy.prefix|..] == refNo;
      if policy.prefix != "" then policy.prefix + refNo
      else
        assert policy.prefix + refNo == refNo;
        refNo
    else
      policy.refno
  }

  /**
   * A random reference is the prefix followed by the first `min(L, 32)`
   * UUID digits, where `L` is the drawn length, and has no dash after the prefix.
   */
  lemma RandomRefNoShape(policy: RefPolicy, uuid: Uuid, r: Random)
    requires policy.kind == "random" && uuid.Valid()
    requires |policy.lengths| > 0
    ensures var L := GetRandomElement(policy.lengths, r).value;
            var ref := GenerateRefNo(policy, uuid, r);
            var digits := uuid.g1 + uuid.g2 + uuid.g3 + uuid.g4 + uuid.g5;
            && L in policy.lengths
            && StartsWith(ref, policy.prefix)
            && |ref| == |policy.prefix| + (if L < 0 then 0 else if L > 32 then 32 else L)
            && StartsWith(digits, ref[|policy.prefix|..])
            && '-' !in ref[|policy.prefix|..]
  {
    UuidDigits(uuid);
    var ref := GenerateRefNo(policy, uuid, r);
    var part := PrefixUpTo(Remove(uuid.Text(), '-'), GetRandomElement(policy.lengths, r));
    assert ref == policy.prefix + part;
    assert ref[|policy.prefix|..] == part;
    assert forall i :: 0 <= i < |part| ==> part[i] == Remove(uuid.Text(), '-')[i];
  }

  /** With no length choices the whole 32-digit UUID follows the prefix. */
  lemma RandomRefNoNoLengths(policy: RefPolicy, uuid: Uuid, r: Random)
    requires policy.kind == "random" && uuid.Valid() && policy.lengths == []
    ensures GenerateRefNo(policy, uuid, r) == policy.prefix + (uuid.g1 + uuid.g2 + uuid.g3 + uuid.g4 + uuid.g5)
  {
    UuidDigits(uuid);
  }
}
