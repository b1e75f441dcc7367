/** Anti-cheat helpers of the clicker game (chinese_game/js/utils/security.js): a
    sliding-window click-rate guard, a range check over the game record, and a
    32-bit rolling checksum rendered in base 36. */
module Security {
  import opened Wrappers
  import opened Sequences
  import Store

  const MaxClicksPerSecond := 10
  const ClickWindowMs := 1000

  /** The timestamps still inside the window at time `now`, in their original order
      (`clickTimestamps.filter(t => now - t < CLICK_WINDOW_MS)`). */
  function Recent(timestamps: seq<int>, now: int): (r: seq<int>)
    ensures |r| <= |timestamps|
    ensures forall t :: t in r <==> t in timestamps && now - t < ClickWindowMs
    ensures (forall i :: 0 <= i < |timestamps| ==> now - timestamps[i] < ClickWindowMs) ==> r == timestamps
    ensures (forall i :: 0 <= i < |timestamps| ==> now - timestamps[i] >= ClickWindowMs) ==> r == []
    ensures Subsequence(r, timestamps)
    ensures forall t :: multiset(r)[t] == if now - t < ClickWindowMs then multiset(timestamps)[t] else 0
  {
    if timestamps == [] then []
    else
      var rest := Recent(timestamps[1..], now);
      assert timestamps == [timestamps[0]] + timestamps[1..];
      if now - timestamps[0] < ClickWindowMs then
        assert ([timestamps[0]] + rest)[1..] == rest;
        [timestamps[0]] + rest
      else
        rest
  }

  class SecurityManager {
    var clickTimestamps: seq<int>

    /** The guard never remembers more clicks than it admits per window. */
    ghost predicate Valid()
      reads this
    {
      |clickTimestamps| <= MaxClicksPerSecond
    }

    constructor ()
      ensures Valid() && clickTimestamps == []
    {
      clickTimestamps := [];
    }

    /** validateClick, with the clock reading `now` passed in. Expired timestamps are
        dropped even when the click is refused. */
    method ValidateClick(now: int) returns (ok: bool)
      requires Valid()
      modifies this
      ensures Valid()
      ensures ok <==> |Recent(old(clickTimestamps), now)| < MaxClicksPerSecond
      ensures clickTimestamps == if ok then Recent(old(clickTimestamps), now) + [now]
                                 else Recent(old(clickTimestamps), now)
    {
      clickTimestamps := Recent(clickTimestamps, now);
      if |clickTimestamps| >= MaxClicksPerSecond {
        return false;
      }
      clickTimestamps := clickTimestamps + [now];
      return true;
    }

    /** generateChecksum over the code units of the serialised data. */
    method GenerateChecksum(data: seq<CodeUnit>) returns (checksum: string)
      ensures checksum == ToBase36(Hash(data))
    {
      var hash := 0;
      for i := 0 to |data|
        invariant hash == Hash(data[..i])
      {
        var code := data[i] as int;
        hash := ToInt32(hash * 32) - hash + code;   // (hash << 5) - hash + char
        hash := ToInt32(hash);                      // hash & hash
        RollingStep(Hash(data[..i]), code);
        assert data[..i + 1][..i] == data[..i];
      }
      assert data[..|data|] == data;
      checksum := ToBase36(hash);
    }

    /** verifyChecksum. */
    method VerifyChecksum(data: seq<CodeUnit>, checksum: string) returns (ok: bool)
      ensures ok <==> checksum == ToBase36(Hash(data))
    {
      var expected := GenerateChecksum(data);
      ok := expected == checksum;
    }
  }

  /** A run of clicks: the admission result of each call, starting from an empty guard. */
  method RateLimitTrace() returns (admitted: seq<bool>)
    ensures admitted == [true, true, true, true, true, true, true, true, true, true, false, true]
  {
    var guard := new SecurityManager();
    admitted := [];
    var t := 0;
    while t < 10
      invariant 0 <= t <= 10 && guard.Valid()
      invariant |guard.clickTimestamps| == t
      invariant forall i :: 0 <= i < t ==> guard.clickTimestamps[i] == 100 * i
      invariant |admitted| == t && forall i :: 0 <= i < t ==> admitted[i]
    {
      var ok := guard.ValidateClick(100 * t);
      admitted := admitted + [ok];
      t := t + 1;
    }
    var late := guard.ValidateClick(950);
    admitted := admitted + [late];
    var later := guard.ValidateClick(2000);
    admitted := admitted + [later];
  }

  /** validateState: the range checks on the balance, the beast's HP and the level. */
  predicate ValidState(s: Store.GameState) {
    && 0 <= s.firecrackers <= 999999
    && 0 <= s.beastHP <= s.beastMaxHP
    && 1 <= s.level <= 100
  }

  /** A record that keeps the store invariant passes the range check exactly while its
      balance and level stay below the caps; the default record passes. */
  lemma StoreInvariantPassesRangeCheck(s: Store.GameState)
    requires Store.Invariant(s)
    ensures ValidState(s) <==> s.firecrackers <= 999999 && s.level <= 100
    ensures ValidState(Store.DefaultState(s.lastPlayDate))
  {
  }

  // ---------------------------------------------------------------------------
  // Checksum

  /** A UTF-16 code unit, as `charCodeAt` returns it. */
  type CodeUnit = c: int | 0 <= c < 0x1_0000

  const TwoTo31 := 0x8000_0000
  const TwoTo32 := 0x1_0000_0000

  /** JavaScript's ToInt32: the signed 32-bit integer congruent to `x` modulo 2^32. */
  function ToInt32(x: int): (r: int)
    ensures -TwoTo31 <= r < TwoTo31
    ensures (x - r) % TwoTo32 == 0
  {
    (x + TwoTo31) % TwoTo32 - TwoTo31
  }

  lemma ToInt32Congruent(a: int, b: int, k: int)
    requires a == b + k * TwoTo32
    ensures ToInt32(a) == ToInt32(b)
  {
    assert (a + TwoTo31) == (b + TwoTo31) + k * TwoTo32;
  }

  /** The shift-based update of the loop is the rolling hash `31 * hash + char`
      reduced to 32 bits. */
  lemma RollingStep(hash: int, code: int)
    ensures ToInt32(ToInt32(hash * 32) - hash + code) == ToInt32(31 * hash + code)
  {
    var s := ToInt32(hash * 32);
    var k := (hash * 32 - s) / TwoTo32;
    assert hash * 32 == s + k * TwoTo32;
    ToInt32Congruent(31 * hash + code, s - hash + code, k);
  }

  /** The rolling string hash from 0: `hash := int32(31 * hash + char)` for each code unit. */
  function Hash(s: seq<CodeUnit>): (h: int)
    ensures -TwoTo31 <= h < TwoTo31
  {
    if s == [] then 0 else ToInt32(31 * Hash(s[..|s| - 1]) + s[|s| - 1])
  }

  /** The base-36 digit for `v`: '0'..'9', then 'a'..'z'. */
  function DigitChar(v: nat): (c: char)
    requires v < 36
    ensures IsDigit(c)
  {
    if v < 10 then ('0' as int + v) as char else ('a' as int + v - 10) as char
  }

  predicate IsDigit(c: char) {
    '0' <= c <= '9' || 'a' <= c <= 'z'
  }

  function DigitValue(c: char): (v: nat)
    requires IsDigit(c)
    ensures v < 36 && DigitChar(v) == c
  {
    if c <= '9' then c as int - '0' as int else c as int - 'a' as int + 10
  }

  function DigitsOf(n: nat): (s: string)
    ensures |s| >= 1 && forall i :: 0 <= i < |s| ==> IsDigit(s[i])
  {
    if n < 36 then [DigitChar(n)] else DigitsOf(n / 36) + [DigitChar(n % 36)]
  }

  /** `n.toString(36)` for an integer: lower-case base-36 digits with a leading '-'
      for negative numbers. */
  function ToBase36(n: int): (s: string)
    ensures |s| >= 1 && (s[0] == '-' <==> n < 0)
  {
    if n < 0 then "-" + DigitsOf(-n) else DigitsOf(n)
  }

  function ParseDigits(s: string): int
    requires forall i :: 0 <= i < |s| ==> IsDigit(s[i])
  {
    if s == [] then 0 else 36 * ParseDigits(s[..|s| - 1]) + DigitValue(s[|s| - 1])
  }

  /** Reads a base-36 numeral back; the inverse of ToBase36. */
  function ParseBase36(s: string): Option<int> {
    if |s| > 0 && s[0] == '-' && forall i :: 1 <= i < |s| ==> IsDigit(s[i]) then Some(-ParseDigits(s[1..]))
    else if forall i :: 0 <= i < |s| ==> IsDigit(s[i]) then Some(ParseDigits(s))
    else None
  }

  lemma {:induction false} ParseDigitsOf(n: nat)
    ensures ParseDigits(DigitsOf(n)) == n
  {
    if n >= 36 {
      var s := DigitsOf(n);
      assert s[..|s| - 1] == DigitsOf(n / 36);
      ParseDigitsOf(n / 36);
    }
  }

  /** Rendering in base 36 loses nothing: the numeral reads back as the number. */
  lemma Base36RoundTrip(n: int)
    ensures ParseBase36(ToBase36(n)) == Some(n)
  {
    var s := ToBase36(n);
    if n < 0 {
      var d := DigitsOf(-n);
      ParseDigitsOf(-n);
      assert s[1..] == d;
      forall i | 1 <= i < |s|
        ensures IsDigit(s[i])
      {
        assert s[i] == d[i - 1];
      }
    } else {
      ParseDigitsOf(n);
      assert IsDigit(s[0]) && !IsDigit('-');
    }
  }

  /** Hence two checksums are equal exactly when the hashes are: verifyChecksum
      compares the 32-bit hashes themselves. */
  lemma ChecksumsEqualIffHashesEqual(a: seq<CodeUnit>, b: seq<CodeUnit>)
    ensures ToBase36(Hash(a)) == ToBase36(Hash(b)) <==> Hash(a) == Hash(b)
  {
    Base36RoundTrip(Hash(a));
    Base36RoundTrip(Hash(b));
  }

  /** The hash of a few short strings, as JavaScript computes it. */
  lemma HashSamples()
    ensures Hash([]) == 0 && ToBase36(Hash([])) == "0"
    ensures Hash([97]) == 97 && ToBase36(Hash([97])) == "2p"
    ensures Hash([97, 98]) == 3105
  {
    assert [97, 98][..1] == [97];
  }
}
