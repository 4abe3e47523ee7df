/** What the hash-string layer promises across calls: the salt it formats is one it
    accepts, revision detection never fails on an accepted salt, `$2y$` is hashed as
    `$2b$` while the caller's tag is kept, and `verify` accepts what `hash` produced. */
module BCryptProperties {
  import opened SwiftStrings
  import opened BCrypt

  /** What the round trip needs of `bcrypt_hashpass` on one input: when it reports
      success, it leaves a 60-character hash whose first 29 characters are the salt
      it was given. */
  predicate EchoesSalt(native: NativeHash, plaintext: string, nativeSalt: string) {
    var hashed := native(plaintext, nativeSalt);
    hashed.status == 0 ==>
      |hashed.output| == Algorithm.RevisionCostSaltCount + Algorithm.ChecksumCount
      && hashed.output[..Algorithm.RevisionCostSaltCount] == nativeSalt
  }

  /** For every valid cost the two-character cost field reads back as the cost, and it is
      zero-padded exactly when the cost is below 10. */
  lemma CostFieldRoundTrip(cost: nat)
    requires 4 <= cost <= 31
    ensures |CostField(cost)| == 2 && DecimalValue(CostField(cost)) == cost
    ensures CostField(cost)[0] == '0' <==> cost < 10
  {
    DecimalRoundTrip(cost);
    if cost < 10 {
      LeadingZero(Decimal(cost));
    }
  }

  /** A generated salt is `rawValue` + two-digit cost + `$` + the 22 encoded characters:
      29 characters that `assertSalt` accepts and that are detected as the requested
      revision. */
  lemma GenerateSaltFormat(cost: nat, algorithm: Algorithm, encoded: string)
    requires 4 <= cost <= 31 && |encoded| == Algorithm.SaltCount
    ensures var r := GenerateSalt(cost, algorithm, Encoded(encoded));
            && r.Success?
            && |r.value| == Algorithm.RevisionCount + 2 + 1 + Algorithm.SaltCount
            && |r.value| == Algorithm.RevisionCostSaltCount
            && r.value[..4] == algorithm.RawValue()
            && AllDigits(r.value[4..6]) && DecimalValue(r.value[4..6]) == cost
            && r.value[6] == '$' && r.value[7..] == encoded
            && AssertSalt(r.value).Pass?
            && DetectAlgorithm(r.value) == Success(algorithm)
  {
    var s := GenerateSalt(cost, algorithm, Encoded(encoded)).value;
    CostFieldRoundTrip(cost);
    assert s[4..6] == CostField(cost);
    assert s[..4] == algorithm.RawValue();
    assert AlgorithmFromRawValue(s[..4]) == Some(algorithm);
    assert Prefix(s, Algorithm.RevisionCount) == s[..4];
  }

  /** Once `assertSalt` has passed, revision detection cannot fail: a bare salt is `$2b$`,
      a tagged one is the revision its tag names. */
  lemma DetectAfterAssertSalt(salt: string)
    requires AssertSalt(salt).Pass?
    ensures DetectAlgorithm(salt).Success?
    ensures IsLegacySalt(salt) ==> DetectAlgorithm(salt).value == Alg2b
    ensures IsRevisionSalt(salt) ==> Some(DetectAlgorithm(salt).value) == AlgorithmFromRawValue(salt[..4])
  {
  }

  /** For an accepted salt, the salt handed to the native code has the same length and
      differs from it at most in its first four characters: only `$2y$` is rewritten,
      to `$2b$`, so the native code never sees a `$2y$` tag. */
  lemma NativeSaltShape(salt: string)
    requires AssertSalt(salt).Pass?
    ensures DetectAlgorithm(salt).Success?
    ensures var algorithm := DetectAlgorithm(salt).value;
            var nativeSalt := NativeSalt(algorithm, salt);
            && |nativeSalt| == |salt|
            && nativeSalt[4..] == salt[4..]
            && (algorithm == Alg2y <==> salt[..4] == "$2y$")
            && (algorithm == Alg2y ==> nativeSalt[..4] == "$2b$")
            && (algorithm != Alg2y ==> nativeSalt == salt)
            && nativeSalt[..4] != "$2y$"
  {
  }

  /** `hash(_:salt:)` on an accepted salt: a nonzero native status is `invalidPlaintext`;
      otherwise the result is the caller's tag (`$2b$` for a bare salt) followed by the
      native output minus its first four characters. */
  lemma HashKeepsRevision(native: NativeHash, plaintext: string, salt: string)
    requires AssertSalt(salt).Pass?
    ensures DetectAlgorithm(salt).Success?
    ensures var hashed := native(plaintext, NativeSalt(DetectAlgorithm(salt).value, salt));
            var tag := if IsLegacySalt(salt) then "$2b$" else salt[..4];
            Hash(native, plaintext, salt)
              == if hashed.status != 0 then Failure(InvalidPlaintext(plaintext))
                 else Success(tag + DropFirst(hashed.output, 4))
  {
  }

  /** A `$2y$` salt hashes exactly as the `$2b$` salt with the same cost and encoded salt:
      both fail together, and on success the two hashes differ only in their tag. */
  lemma Hash2yAs2b(native: NativeHash, plaintext: string, rest: string)
    requires |rest| == Algorithm.RevisionCostSaltCount - Algorithm.RevisionCount
    ensures var y := Hash(native, plaintext, "$2y$" + rest);
            var b := Hash(native, plaintext, "$2b$" + rest);
            && (y.Success? <==> b.Success?)
            && (y.Failure? ==> y == b == Failure(InvalidPlaintext(plaintext)))
            && (y.Success? ==> y.value[..4] == "$2y$" && b.value[..4] == "$2b$" && y.value[4..] == b.value[4..])
  {
  }

  /** `verify` accepts what `hash(_:salt:)` produced from a tagged 29-character salt,
      provided the native code echoes its salt; if the native code fails, so does `hash`. */
  lemma VerifyAcceptsOwnHash(native: NativeHash, plaintext: string, algorithm: Algorithm, rest: string)
    requires |rest| == Algorithm.RevisionCostSaltCount - Algorithm.RevisionCount
    requires EchoesSalt(native, plaintext, NativeSalt(algorithm, algorithm.RawValue() + rest))
    ensures var h := Hash(native, plaintext, algorithm.RawValue() + rest);
            && (h.Failure? ==> h.error == InvalidPlaintext(plaintext))
            && (h.Success? ==> |h.value| == 60 && h.value[..29] == algorithm.RawValue() + rest
                               && Verify(native, plaintext, h.value) == Success(true))
  {
    var salt := algorithm.RawValue() + rest;
    assert salt[..4] == algorithm.RawValue();
    assert AlgorithmFromRawValue(salt[..4]) == Some(algorithm);
    NativeSaltShape(salt);
    HashKeepsRevision(native, plaintext, salt);
    var h := Hash(native, plaintext, salt);
    if h.Success? {
      var nativeSalt := NativeSalt(algorithm, salt);
      var out := native(plaintext, nativeSalt).output;
      assert h.value == algorithm.RawValue() + out[4..];
      assert h.value[..4] == algorithm.RawValue();
      assert h.value[4..29] == out[4..29] == nativeSalt[4..] == salt[4..];
      assert h.value[..29] == salt;
      assert Prefix(h.value, Algorithm.RevisionCount) == algorithm.RawValue();
    }
  }

  /** A stored hash is not accepted for another plaintext whose native checksum differs,
      when the native code echoes the salt for both. */
  lemma VerifyRejectsOtherPlaintext(native: NativeHash, plaintext: string, other: string,
                                    algorithm: Algorithm, rest: string)
    requires |rest| == Algorithm.RevisionCostSaltCount - Algorithm.RevisionCount
    requires var nativeSalt := NativeSalt(algorithm, algorithm.RawValue() + rest);
             && EchoesSalt(native, plaintext, nativeSalt) && EchoesSalt(native, other, nativeSalt)
             && native(other, nativeSalt).status == 0
             && Suffix(native(plaintext, nativeSalt).output, Algorithm.ChecksumCount)
                != Suffix(native(other, nativeSalt).output, Algorithm.ChecksumCount)
    ensures var h := Hash(native, plaintext, algorithm.RawValue() + rest);
            h.Success? ==> Verify(native, other, h.value) == Success(false)
  {
    var salt := algorithm.RawValue() + rest;
    VerifyAcceptsOwnHash(native, plaintext, algorithm, rest);
    VerifyAcceptsOwnHash(native, other, algorithm, rest);
    var h := Hash(native, plaintext, salt);
    if h.Success? {
      var g := Hash(native, other, salt);
      assert h.value[..29] == salt && g.value[..29] == salt;
      var nativeSalt := NativeSalt(algorithm, salt);
      var hp, ho := native(plaintext, nativeSalt).output, native(other, nativeSalt).output;
      assert h.value[29..] == hp[29..];
      assert g.value[29..] == ho[29..];
    }
  }

  /** `verify(p, against: hash(p, cost:algorithm:))` is true for every valid cost and
      revision, `$2y$` included, whose tag the produced hash keeps. */
  lemma VerifyAcceptsHashWithCost(native: NativeHash, plaintext: string, cost: nat,
                                  algorithm: Algorithm, encoded: string)
    requires 4 <= cost <= 31 && |encoded| == Algorithm.SaltCount
    requires EchoesSalt(native, plaintext,
                        NativeSalt(algorithm, algorithm.RawValue() + CostField(cost) + "$" + encoded))
    ensures var h := HashWithCost(native, plaintext, cost, algorithm, Encoded(encoded));
            && (h.Failure? ==> h.error == InvalidPlaintext(plaintext))
            && (h.Success? ==> h.value[..29] == GenerateSalt(cost, algorithm, Encoded(encoded)).value
                               && h.value[..4] == algorithm.RawValue()
                               && Verify(native, plaintext, h.value) == Success(true))
  {
    GenerateSaltFormat(cost, algorithm, encoded);
    var salt := GenerateSalt(cost, algorithm, Encoded(encoded)).value;
    var rest := salt[4..];
    assert salt == algorithm.RawValue() + rest;
    VerifyAcceptsOwnHash(native, plaintext, algorithm, rest);
  }

  /** The inputs the unit tests use to provoke each error. */
  lemma RejectsMalformedInputs(native: NativeHash, plaintext: string, algorithm: Algorithm, draw: RandomDraw)
    ensures GenerateSalt(Algorithm.MinCost - 1, algorithm, draw) == Failure(InvalidCost(3))
    ensures GenerateSalt(Algorithm.MaxCost + 1, algorithm, draw) == Failure(InvalidCost(32))
    ensures Verify(native, plaintext, "invalidHash") == Failure(InvalidHash("invalidHash"))
    ensures Hash(native, plaintext, "invalidSalt") == Failure(InvalidSalt("invalidSalt"))
  {
  }
}
