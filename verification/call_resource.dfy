/**
 Call resources: the strings that name one gateway call. A resource is the
 hexadecimal rendering of a millisecond timestamp, an '@', and the
 component's domain, e.g. "18c1f2e3a4b@callcontrol.example.net".
 */
module CallResource {
  import opened JavaStrings
  import opened Hex

  /** The separator between the call id and the domain. */
  const AT: char := '@'

  /** `r` reads as a call id of hex digits, then '@', then `domain`. */
  predicate IsResourceOf(r: string, domain: string) {
    var i := IndexOf(r, AT);
    && 0 <= i
    && IsCanonicalHex(r[..i])
    && r[i + 1..] == domain
  }

  /**
   `generateNextCallResource`: the resource for a call allocated at time `now`
   (milliseconds). Nothing checks whether the resource is already in use, so
   two calls allocated in the same millisecond get the same resource.
   */
  function GenerateNextCallResource(now: Long, domain: string): (r: string)
    ensures IsResourceOf(r, domain)
    ensures r[..IndexOf(r, AT)] == LongToHexString(now)
  {
    var id := LongToHexString(now);
    LongToHexStringHasNoAt(now);
    IndexOfAfterPrefix(id, AT, domain);
    assert (id + [AT] + domain)[..|id|] == id;
    id + [AT] + domain
  }

  /** `extractCallIdFromResource`: the part of a resource before its first '@'. */
  function ExtractCallIdFromResource(callResource: string): (id: string)
    requires AT in callResource
    ensures AT !in id
    ensures |id| < |callResource| && callResource[|id|] == AT
    ensures callResource[..|id|] == id
  {
    callResource[..IndexOf(callResource, AT)]
  }

  /** Extracting the call id from a generated resource gives the hex timestamp back. */
  lemma ExtractAfterGenerate(now: Long, domain: string)
    ensures AT in GenerateNextCallResource(now, domain)
    ensures ExtractCallIdFromResource(GenerateNextCallResource(now, domain)) == LongToHexString(now)
  {
  }

  /** The timestamp a resource was generated from can be read back from its call id. */
  lemma TimestampFromResource(now: Long, domain: string)
    ensures AT in GenerateNextCallResource(now, domain)
    ensures ParseHex(ExtractCallIdFromResource(GenerateNextCallResource(now, domain))) == Unsigned(now)
  {
    ExtractAfterGenerate(now, domain);
    ParseToHexString(Unsigned(now));
  }

  /**
   Two generated resources are equal exactly when they were generated at the
   same time for the same domain: distinct timestamps never collide, equal
   ones always do.
   */
  lemma GenerateInjective(t1: Long, d1: string, t2: Long, d2: string)
    ensures GenerateNextCallResource(t1, d1) == GenerateNextCallResource(t2, d2)
            <==> t1 == t2 && d1 == d2
  {
    var r1 := GenerateNextCallResource(t1, d1);
    var r2 := GenerateNextCallResource(t2, d2);
    if r1 == r2 {
      LongToHexStringInjective(t1, t2);
    }
  }

  /** Every resource of the expected shape is one the generator can produce. */
  lemma ResourceOfIsGenerated(r: string, domain: string)
    requires IsResourceOf(r, domain)
    requires |r[..IndexOf(r, AT)]| <= 16
    ensures exists t: Long :: GenerateNextCallResource(t, domain) == r
  {
    var i := IndexOf(r, AT);
    var id := r[..i];
    var u := ParseHex(id);
    Pow16Is64Bits();
    assert Pow16(|id|) <= Pow16(16) by { Pow16Monotone(|id|, 16); }
    var t: Long := if u < 0x8000_0000_0000_0000 then u else u - TWO_TO_64;
    assert Unsigned(t) == u;
    ToHexStringOfParse(id);
    assert LongToHexString(t) == id;
    assert r == id + [AT] + domain by { assert r == r[..i] + [r[i]] + r[i + 1..]; }
    assert GenerateNextCallResource(t, domain) == r;
  }

  lemma {:induction false} Pow16Monotone(j: nat, k: nat)
    requires j <= k
    ensures Pow16(j) <= Pow16(k)
    decreases k
  {
    if j < k {
      Pow16Monotone(j, k - 1);
    }
  }
}
