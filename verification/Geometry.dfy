/** Multipart geometry over the source's machine integers: i64 sizes, i32 part numbers. */
module Geometry {
  const MAX_PARTS: int := 10_000
  const MAX_SINGLE_PUT_BYTES: int := 5 * 1024 * 1024 * 1024
  const MIN_PART_SIZE: int := 5 * 1024 * 1024
  const MAX_PART_SIZE: int := 5 * 1024 * 1024 * 1024
  const I32_MAX: int := 0x7fff_ffff
  const I64_MAX: int := 0x7fff_ffff_ffff_ffff

  predicate I64(x: int) {
    -I64_MAX - 1 <= x <= I64_MAX
  }

  /** A quotient narrowed to i32 the way `as i32` narrows it. */
  function AsI32(x: int): int {
    var low := x % 0x1_0000_0000;
    if low <= I32_MAX then low else low - 0x1_0000_0000
  }

  function SaturatingMul(x: int, y: int): int {
    if x * y > I64_MAX then I64_MAX else if x * y < -I64_MAX - 1 then -I64_MAX - 1 else x * y
  }

  datatype Verdict = Single | Multipart | Negative | TooLarge | Md5Refused | SingleTooLarge

  function ClassifyUpload(declaredSize: int, threshold: int, partSize: int, hasMd5: bool): Verdict {
    if declaredSize < 0 then Negative
    else if declaredSize > threshold then
      if declaredSize > SaturatingMul(partSize, MAX_PARTS) then TooLarge
      else if hasMd5 then Md5Refused
      else Multipart
    else if declaredSize > MAX_SINGLE_PUT_BYTES then SingleTooLarge
    else Single
  }

  /** Which declarations are refused and why, in plain numbers: nothing negative, one PUT up to the
      threshold and 5 GiB, and beyond it up to ten thousand parts, without an MD5 of the whole. */
  lemma ClassifiedExactlyWhen(declaredSize: int, threshold: int, partSize: int, hasMd5: bool)
    requires MIN_PART_SIZE <= partSize <= MAX_PART_SIZE
    ensures var verdict := ClassifyUpload(declaredSize, threshold, partSize, hasMd5);
            var large := declaredSize >= 0 && declaredSize > threshold;
            (verdict == Negative <==> declaredSize < 0) &&
            (verdict == TooLarge <==> large && declaredSize > partSize * 10_000) &&
            (verdict == Md5Refused <==> large && declaredSize <= partSize * 10_000 && hasMd5) &&
            (verdict == Multipart <==> large && declaredSize <= partSize * 10_000 && !hasMd5) &&
            (verdict == SingleTooLarge <==> 0 <= declaredSize <= threshold && declaredSize > 5_368_709_120) &&
            (verdict == Single <==> 0 <= declaredSize <= threshold && declaredSize <= 5_368_709_120)
  {
  }

  /** Part sizes are 5 MiB to 5 GiB; beyond any configuration the product stops at the ends of i64. */
  lemma ProductIsClamped(x: int, y: int)
    ensures MIN_PART_SIZE == 5_242_880 && MAX_PART_SIZE == 5_368_709_120
    ensures I64(SaturatingMul(x, y)) && (I64(x * y) ==> SaturatingMul(x, y) == x * y)
    ensures x * y > I64_MAX ==> SaturatingMul(x, y) == 9_223_372_036_854_775_807
    ensures x * y < -I64_MAX - 1 ==> SaturatingMul(x, y) == -9_223_372_036_854_775_808
  {
  }

  function PartCount(declaredSize: int, partSize: int): int
    requires partSize > 0
  {
    AsI32((declaredSize + partSize - 1) / partSize)
  }

  function PartExpectedSize(declaredSize: int, partSize: int, partNo: int): int
    requires partSize > 0
  {
    if partNo == PartCount(declaredSize, partSize) then declaredSize - (partNo - 1) * partSize
    else partSize
  }

  function PartOffset(partSize: int, partNo: int): int {
    (partNo - 1) * partSize
  }

  predicate PartNumberOk(partNo: int, count: int) {
    1 <= partNo <= count
  }

  /** What the server accepts: a configured part size and threshold, and a declaration that is
      classified as multipart under them. */
  predicate AcceptedMultipart(declaredSize: int, threshold: int, partSize: int) {
    I64(declaredSize) && I64(threshold) && threshold >= 1 &&
    MIN_PART_SIZE <= partSize <= MAX_PART_SIZE &&
    ClassifyUpload(declaredSize, threshold, partSize, false) == Multipart
  }

  lemma MulMonotone(a: int, b: int, d: int)
    ensures a <= b && 0 <= d ==> a * d <= b * d
  {
  }

  lemma DivisionBounds(n: int, d: int)
    requires d > 0
    ensures var q := (n + d - 1) / d; (q - 1) * d < n <= q * d
  {
  }

  /** The ceiling of n / d is between 1 and `most` when 0 < n <= d * most. */
  lemma CeilingBounds(n: int, d: int, most: nat)
    requires 0 < d && 0 < n <= d * most
    ensures 1 <= (n + d - 1) / d <= most
  {
    var q := (n + d - 1) / d;
    DivisionBounds(n, d);
    MulMonotone(q, 0, d);
    MulMonotone(most, q - 1, d);
  }

  lemma CountIsCeiling(declaredSize: int, threshold: int, partSize: int)
    requires AcceptedMultipart(declaredSize, threshold, partSize)
    ensures I64(declaredSize + partSize - 1)
    ensures PartCount(declaredSize, partSize) == (declaredSize + partSize - 1) / partSize
    ensures 1 <= PartCount(declaredSize, partSize) <= MAX_PARTS
  {
    CeilingBounds(declaredSize, partSize, MAX_PARTS);
  }

  /** Part n as a half-open byte range. */
  function PartEnd(declaredSize: int, partSize: int, n: int): int
    requires partSize > 0
  {
    PartOffset(partSize, n) + PartExpectedSize(declaredSize, partSize, n)
  }

  /** One part of an accepted file: non-empty, only the last may be short, and it ends where the
      next one starts or, for the last, at the declared size. No step leaves i64. */
  lemma PartIsInPlace(declaredSize: int, threshold: int, partSize: int, n: int)
    requires AcceptedMultipart(declaredSize, threshold, partSize)
    requires PartNumberOk(n, PartCount(declaredSize, partSize))
    ensures var size := PartExpectedSize(declaredSize, partSize, n);
            var count := PartCount(declaredSize, partSize);
            0 < size <= partSize && (n < count ==> size == partSize) &&
            0 <= PartOffset(partSize, n) && PartEnd(declaredSize, partSize, n) <= declaredSize &&
            PartEnd(declaredSize, partSize, n) == if n == count then declaredSize else PartOffset(partSize, n + 1)
  {
    CountIsCeiling(declaredSize, threshold, partSize);
    DivisionBounds(declaredSize, partSize);
    var count := PartCount(declaredSize, partSize);
    MulMonotone(1, n, partSize);
    MulMonotone(n, count - 1, partSize);
    assert n * partSize == (n - 1) * partSize + partSize;
    assert count * partSize == (count - 1) * partSize + partSize;
  }

  lemma QuotientIsUnique(x: int, d: int, q: int)
    requires d > 0
    ensures q * d <= x < q * d + d <==> q == x / d
  {
    var p := x / d;
    assert x == p * d + x % d;
    MulMonotone(q + 1, p, d);
    MulMonotone(p + 1, q, d);
    assert (q + 1) * d == q * d + d && (p + 1) * d == p * d + d;
  }

  lemma QuotientBound(x: int, d: int, q: int)
    requires d > 0 && 0 <= x < q * d
    ensures 0 <= x / d < q
  {
    QuotientIsUnique(x, d, x / d);
    MulMonotone(q, x / d, d);
  }

  /** A byte lies in part n exactly when it is in the file and n is its quotient plus one. */
  lemma ByteInPart(declaredSize: int, threshold: int, partSize: int, n: int, at: int)
    requires AcceptedMultipart(declaredSize, threshold, partSize)
    requires PartNumberOk(n, PartCount(declaredSize, partSize))
    ensures PartOffset(partSize, n) <= at < PartEnd(declaredSize, partSize, n) <==>
            0 <= at < declaredSize && n == at / partSize + 1
  {
    PartIsInPlace(declaredSize, threshold, partSize, n);
    CountIsCeiling(declaredSize, threshold, partSize);
    DivisionBounds(declaredSize, partSize);
    QuotientIsUnique(at, partSize, n - 1);
    assert n * partSize == (n - 1) * partSize + partSize;
  }

  lemma BytesHaveAPart(declaredSize: int, threshold: int, partSize: int, at: int)
    requires AcceptedMultipart(declaredSize, threshold, partSize) && 0 <= at < declaredSize
    ensures PartNumberOk(at / partSize + 1, PartCount(declaredSize, partSize))
  {
    CountIsCeiling(declaredSize, threshold, partSize);
    DivisionBounds(declaredSize, partSize);
    QuotientBound(at, partSize, PartCount(declaredSize, partSize));
  }

  /** Parts 1..count tile [0, declaredSize): every byte lies in exactly one part, the part found
      by dividing its position by the part size. No step leaves i64 and no cast loses a bit. */
  lemma PartsTileTheFile(declaredSize: int, threshold: int, partSize: int, at: int)
    requires AcceptedMultipart(declaredSize, threshold, partSize)
    ensures var count := PartCount(declaredSize, partSize);
            1 <= count <= MAX_PARTS && I64(declaredSize + partSize - 1) && I64(count * partSize)
    ensures forall n | PartNumberOk(n, PartCount(declaredSize, partSize)) ::
              PartOffset(partSize, n) <= at < PartEnd(declaredSize, partSize, n) <==>
              0 <= at < declaredSize && n == at / partSize + 1
    ensures 0 <= at < declaredSize ==> PartNumberOk(at / partSize + 1, PartCount(declaredSize, partSize))
  {
    CountIsCeiling(declaredSize, threshold, partSize);
    var count := PartCount(declaredSize, partSize);
    MulMonotone(count, MAX_PARTS, partSize);
    MulMonotone(0, count, partSize);
    if 0 <= at < declaredSize {
      BytesHaveAPart(declaredSize, threshold, partSize, at);
    }
    forall n | PartNumberOk(n, count)
      ensures PartOffset(partSize, n) <= at < PartEnd(declaredSize, partSize, n) <==>
              0 <= at < declaredSize && n == at / partSize + 1
    {
      ByteInPart(declaredSize, threshold, partSize, n, at);
    }
  }

  function Sum(xs: seq<int>): int {
    if xs == [] then 0 else Sum(xs[..|xs| - 1]) + xs[|xs| - 1]
  }

  lemma {:induction false} FullPartsSum(xs: seq<int>, partSize: int)
    requires forall i | 0 <= i < |xs| :: xs[i] == partSize
    ensures Sum(xs) == |xs| * partSize
  {
    if xs != [] {
      FullPartsSum(xs[..|xs| - 1], partSize);
    }
  }

  /** A ledger whose sizes pass the per-part check adds up to exactly the declared size. */
  lemma VerifiedPartsSumToTheDeclaration(declaredSize: int, threshold: int, partSize: int, sizes: seq<int>)
    requires AcceptedMultipart(declaredSize, threshold, partSize)
    requires |sizes| == PartCount(declaredSize, partSize)
    requires forall i | 0 <= i < |sizes| :: sizes[i] == PartExpectedSize(declaredSize, partSize, i + 1)
    ensures Sum(sizes) == declaredSize
  {
    CountIsCeiling(declaredSize, threshold, partSize);
    FullPartsSum(sizes[..|sizes| - 1], partSize);
  }
}
