/** The hash-string layer of the `BCrypt` struct: cost and salt validation, salt
    formatting, revision detection, the `$2y$` rewrite, output assembly and verification.
    The Blowfish-based hashing itself sits behind `bcrypt_hashpass`, which is modelled
    as a function-valued parameter (`NativeHash`). */
module BCrypt {
  import opened SwiftStrings

  /** The revision tags, with the fixed widths of the hash format. */
  datatype Algorithm = Alg2a | Alg2b | Alg2y
  {
    static const ChecksumCount: nat := 31
    static const RevisionCount: nat := 4
    static const RevisionCostSaltCount: nat := 29
    static const MaxCost: nat := 31
    static const MinCost: nat := 4
    static const SaltCount: nat := 22

    /** The tag as it appears at the head of a salt or hash: `$2?$`. */
    function RawValue(): (r: string)
      ensures |r| == RevisionCount
      ensures r[0] == '$' && r[1] == '2' && r[3] == '$'
    {
      match this
      case Alg2a => "$2a$"
      case Alg2b => "$2b$"
      case Alg2y => "$2y$"
    }
  }

  /** `Algorithm.allCases`: every revision exactly once, with pairwise distinct tags. */
  function AllCases(): (r: seq<Algorithm>)
    ensures |r| == 3
    ensures forall a: Algorithm :: a in r
    ensures forall i, j :: 0 <= i < j < |r| ==> r[i].RawValue() != r[j].RawValue()
  {
    var r := [Alg2a, Alg2b, Alg2y];
    assert forall a: Algorithm :: a in r <== a.Alg2a? || a.Alg2b? || a.Alg2y?;
    r
  }

  datatype Option<T> = None | Some(value: T)

  /** `Algorithm(rawValue:)`: the revision whose tag is `s`, if any. */
  function AlgorithmFromRawValue(s: string): (r: Option<Algorithm>)
    ensures r.Some? ==> r.value.RawValue() == s
    ensures forall a: Algorithm :: a.RawValue() == s ==> r == Some(a)
  {
    if s == "$2a$" then Some(Alg2a)
    else if s == "$2b$" then Some(Alg2b)
    else if s == "$2y$" then Some(Alg2y)
    else None
  }

  predicate IsRevision(s: string) {
    AlgorithmFromRawValue(s).Some?
  }

  /** `BCryptError`, plus the failure of the random source that `generateSalt`
      lets through unchanged. */
  datatype Error =
    | InvalidCost(cost: nat)
    | InvalidHash(hash: string)
    | InvalidPlaintext(plaintext: string)
    | InvalidSalt(salt: string)
    | RandomSourceError

  /** What a throwing Swift call returns. */
  datatype Result<T> = Success(value: T) | Failure(error: Error)

  /** What a throwing Swift call that returns nothing (`assertCost`, `assertSalt`) returns. */
  datatype Check = Pass | Fail(error: Error)

  /** The 22 encoded random characters `generateSalt` asks for, or a failure to read them. */
  datatype RandomDraw = Encoded(chars: string) | ReadFailed

  /** What `bcrypt_hashpass` reports: its status code and the string left in its output buffer. */
  datatype NativeResult = NativeResult(status: int, output: string)

  /** `bcrypt_hashpass(plaintext, salt, ...)`; deterministic because it is a function. */
  type NativeHash = (string, string) -> NativeResult

  /** A salt with no revision tag: 22 characters of encoded salt. */
  predicate IsLegacySalt(salt: string) {
    |salt| == Algorithm.SaltCount && !IsRevision(salt[..Algorithm.RevisionCount])
  }

  /** A salt led by a revision tag: 29 characters in all. */
  predicate IsRevisionSalt(salt: string) {
    |salt| == Algorithm.RevisionCostSaltCount && IsRevision(salt[..Algorithm.RevisionCount])
  }

  /** `assertCost`: the cost lies in [4, 31]. */
  function AssertCost(cost: nat): (r: Check)
    ensures r.Pass? <==> 4 <= cost <= 31
    ensures r.Fail? ==> r.error == InvalidCost(cost)
  {
    if cost >= Algorithm.MinCost && cost <= Algorithm.MaxCost then Pass else Fail(InvalidCost(cost))
  }

  /** `assertSalt`: a salt is either a bare 22-character salt or a tagged 29-character one. */
  function AssertSalt(salt: string): (r: Check)
    ensures r.Pass? <==> IsLegacySalt(salt) || IsRevisionSalt(salt)
    ensures r.Fail? ==> r.error == InvalidSalt(salt)
  {
    if !IsRevision(Prefix(salt, Algorithm.RevisionCount)) then
      if |salt| == Algorithm.SaltCount then Pass else Fail(InvalidSalt(salt))
    else
      if |salt| == Algorithm.RevisionCostSaltCount then Pass else Fail(InvalidSalt(salt))
  }

  /** The cost as it appears in a salt: `"0\(cost)"` below 10, `"\(cost)"` otherwise. */
  function CostField(cost: nat): (r: string)
    ensures AllDigits(r)
    ensures 4 <= cost <= 31 ==> |r| == 2
  {
    if cost < 10 then "0" + Decimal(cost) else Decimal(cost)
  }

  /** `generateSalt(cost:algorithm:)`, with the encoded random salt as an input. The cost is
      checked before the random source is read, so an invalid cost wins over a read failure. */
  function GenerateSalt(cost: nat, algorithm: Algorithm, draw: RandomDraw): (r: Result<string>)
    ensures !(4 <= cost <= 31) ==> r == Failure(InvalidCost(cost))
    ensures 4 <= cost <= 31 && draw.ReadFailed? ==> r == Failure(RandomSourceError)
    ensures 4 <= cost <= 31 && draw.Encoded? ==>
              r.Success? && |r.value| == 7 + |draw.chars| && r.value[..4] == algorithm.RawValue()
              && r.value[6] == '$' && r.value[7..] == draw.chars
  {
    match AssertCost(cost)
    case Fail(e) => Failure(e)
    case Pass =>
      match draw
      case ReadFailed => Failure(RandomSourceError)
      case Encoded(encodedSalt) =>
        Success(algorithm.RawValue() + CostField(cost) + "$" + encodedSalt)
  }

  /** Revision detection in `hash(_:salt:)`: a bare salt means `$2b$`, otherwise the tag
      at its head names the revision. */
  function DetectAlgorithm(salt: string): (r: Result<Algorithm>)
    ensures r.Success? ==>
              (|salt| == Algorithm.SaltCount && r.value == Alg2b)
              || (|salt| >= 4 && r.value.RawValue() == salt[..4])
    ensures r.Failure? ==> r.error == InvalidSalt(salt)
  {
    if |salt| == Algorithm.SaltCount then Success(Alg2b)
    else
      match AlgorithmFromRawValue(Prefix(salt, Algorithm.RevisionCount))
      case Some(detected) => Success(detected)
      case None => Failure(InvalidSalt(salt))
  }

  /** The salt handed to `bcrypt_hashpass`: a `$2y$` salt travels as `$2b$`. */
  function NativeSalt(algorithm: Algorithm, salt: string): (r: string)
    ensures algorithm != Alg2y ==> r == salt
    ensures algorithm == Alg2y ==> |r| >= 4 && r[..4] == "$2b$"
    ensures algorithm == Alg2y && |salt| >= 4 ==> |r| == |salt| && r[4..] == salt[4..]
  {
    if algorithm == Alg2y then Alg2b.RawValue() + DropFirst(salt, Algorithm.RevisionCount)
    else salt
  }

  /** `hash(_:salt:)`: validate the salt, run the native hash on the (rewritten) salt and
      put the caller's revision back at the head of its output. */
  function Hash(native: NativeHash, plaintext: string, salt: string): (r: Result<string>)
    ensures AssertSalt(salt).Fail? ==> r == Failure(InvalidSalt(salt))
    ensures r.Failure? ==> r.error == InvalidSalt(salt) || r.error == InvalidPlaintext(plaintext)
    ensures r.Success? ==> AssertSalt(salt).Pass? && |r.value| >= 4 && IsRevision(r.value[..4])
  {
    match AssertSalt(salt)
    case Fail(e) => Failure(e)
    case Pass =>
      match DetectAlgorithm(salt)
      case Failure(e) => Failure(e)
      case Success(algorithm) =>
        var hashed := native(plaintext, NativeSalt(algorithm, salt));
        if hashed.status != 0 then Failure(InvalidPlaintext(plaintext))
        else Success(algorithm.RawValue() + DropFirst(hashed.output, Algorithm.RevisionCount))
  }

  /** `hash(_:cost:algorithm:)`: generate a salt, then hash with it. */
  function HashWithCost(native: NativeHash, plaintext: string, cost: nat, algorithm: Algorithm,
                        draw: RandomDraw): (r: Result<string>)
    ensures !(4 <= cost <= 31) ==> r == Failure(InvalidCost(cost))
    ensures 4 <= cost <= 31 && draw.ReadFailed? ==> r == Failure(RandomSourceError)
    ensures 4 <= cost <= 31 && draw.Encoded? ==>
              r == Hash(native, plaintext, GenerateSalt(cost, algorithm, draw).value)
  {
    match GenerateSalt(cost, algorithm, draw)
    case Failure(e) => Failure(e)
    case Success(salt) => Hash(native, plaintext, salt)
  }

  /** A stored hash `verify` refuses outright: no revision tag, or fewer than 31 characters. */
  predicate IsMalformedHash(hashedText: string) {
    |hashedText| < Algorithm.ChecksumCount || !IsRevision(hashedText[..Algorithm.RevisionCount])
  }

  /** `verify(_:against:)`: recompute the hash with the stored 29-character salt and compare
      the last 31 characters. */
  function Verify(native: NativeHash, plaintext: string, hashedText: string): (r: Result<bool>)
    ensures r == Failure(InvalidHash(hashedText)) <==> IsMalformedHash(hashedText)
    ensures r.Failure? && !IsMalformedHash(hashedText) ==> r.error == InvalidPlaintext(plaintext)
    ensures !IsMalformedHash(hashedText) ==>
              (r.Success? <==> Hash(native, plaintext, hashedText[..29]).Success?)
    ensures r.Success? ==>
              var recomputed := Hash(native, plaintext, hashedText[..29]);
              recomputed.Success?
              && (r.value <==> |recomputed.value| >= 31
                                && recomputed.value[|recomputed.value| - 31..] == hashedText[|hashedText| - 31..])
  {
    var revision := Prefix(hashedText, Algorithm.RevisionCount);
    if AlgorithmFromRawValue(revision).None? then Failure(InvalidHash(hashedText))
    else
      var salt := Prefix(hashedText, Algorithm.RevisionCostSaltCount);
      if |salt| == 0 || |salt| != Algorithm.RevisionCostSaltCount then Failure(InvalidHash(hashedText))
      else
        var checksum := Suffix(hashedText, Algorithm.ChecksumCount);
        if |checksum| == 0 || |checksum| != Algorithm.ChecksumCount then Failure(InvalidHash(hashedText))
        else
          match Hash(native, plaintext, salt)
          case Failure(e) => Failure(e)
          case Success(hash) =>
            var hashChecksum := Suffix(hash, Algorithm.ChecksumCount);
            Success(|hashChecksum| != 0 && hashChecksum == checksum)
  }
}
