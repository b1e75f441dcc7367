/** The level curve of the beast-clicker game (chinese_game/js/config/levels.js):
    the beast's hit points per level, the table of predefined levels with its
    generated fallback, and the firecracker budget needed to clear a level. */
module Levels {
  import opened Wrappers

  const BaseHP := 1000
  const HPIncrement := 500
  /** Damage per firecracker assumed by getFirecrackersNeeded when no value is passed. */
  const DefaultDamagePerFirecracker := 10

  datatype LevelInfo = LevelInfo(level: int, hp: int, name: string, description: string, reward: int)

  /** getLevelHP: the beast's full hit points at `level`. */
  function LevelHP(level: int): (hp: int)
    ensures level >= 1 ==> hp >= BaseHP
  {
    BaseHP + (level - 1) * HPIncrement
  }

  /** The LEVELS table. */
  const Table: seq<LevelInfo> := [
    LevelInfo(1, 1000, "初級年獸", "剛剛甦醒的年獸", 50),
    LevelInfo(2, 1500, "憤怒年獸", "開始發怒的年獸", 75),
    LevelInfo(3, 2000, "狂暴年獸", "進入狂暴狀態", 100),
    LevelInfo(4, 2500, "強化年獸", "力量大幅提升", 125),
    LevelInfo(5, 3000, "霸主年獸", "年獸之王", 150)
  ]

  /** Decimal digits of `n`, as a template literal renders a non-negative integer. */
  function DecimalString(n: nat): (s: string)
    ensures |s| >= 1
    ensures forall i :: 0 <= i < |s| ==> '0' <= s[i] <= '9'
  {
    var last := [(('0' as int) + n % 10) as char];
    if n < 10 then last else DecimalString(n / 10) + last
  }

  /** getLevelInfo. For a level of 0 or below the table lookup `LEVELS[level - 1]`
      yields `undefined`, modelled as None. */
  function GetLevelInfo(level: int): (r: Option<LevelInfo>)
    ensures r.None? <==> level < 1
    ensures r.Some? ==> r.value.level == level && r.value.hp == LevelHP(level)
    ensures 1 <= level <= |Table| ==> r == Some(Table[level - 1])
    ensures level > |Table| ==> r.Some? && r.value.reward == 50 + level * 25
  {
    if level <= |Table| then
      if level < 1 then None else Some(Table[level - 1])
    else
      Some(LevelInfo(level, LevelHP(level), "第 " + DecimalString(level) + " 級年獸", "更加強大的年獸", 50 + level * 25))
  }

  /** Ceiling of `a / d` for a positive divisor (Math.ceil of the quotient). */
  function CeilDiv(a: int, d: int): (q: int)
    requires d > 0
    ensures q * d >= a
    ensures (q - 1) * d < a
  {
    var q := (a + d - 1) / d;
    var r := (a + d - 1) % d;
    assert a + d - 1 == q * d + r && 0 <= r < d;
    assert (q - 1) * d == q * d - d;
    q
  }

  /** getFirecrackersNeeded: the number of hits of `damagePerFirecracker` needed to
      bring a full-HP beast of `level` down, i.e. the least n with n * damage >= HP. */
  function FirecrackersNeeded(level: int, damagePerFirecracker: int): (n: int)
    requires damagePerFirecracker > 0
    ensures n * damagePerFirecracker >= LevelHP(level)
    ensures forall m :: m < n ==> m * damagePerFirecracker < LevelHP(level)
  {
    var n := CeilDiv(LevelHP(level), damagePerFirecracker);
    assert forall m :: m < n ==> m * damagePerFirecracker <= (n - 1) * damagePerFirecracker by {
      forall m | m < n ensures m * damagePerFirecracker <= (n - 1) * damagePerFirecracker {
        MulMonotone(m, n - 1, damagePerFirecracker);
      }
    }
    n
  }

  lemma MulMonotone(a: int, b: int, d: int)
    requires a <= b && d >= 0
    ensures a * d <= b * d
  {
    assert b * d - a * d == (b - a) * d;
  }

  /** The curve is strictly increasing: a higher level always has a tougher beast. */
  lemma LevelHPStrictlyIncreasing(a: int, b: int)
    requires a < b
    ensures LevelHP(a) < LevelHP(b)
  {
    assert LevelHP(b) - LevelHP(a) == (b - a) * HPIncrement;
  }

  /** Sample values of the curve: 1000 at level 1, 2000 at level 3, and 100
      ten-point firecrackers for level 1. */
  lemma LevelCurveSamples()
    ensures LevelHP(1) == 1000 && LevelHP(2) == 1500 && LevelHP(3) == 2000
    ensures FirecrackersNeeded(1, DefaultDamagePerFirecracker) == 100
  {
    var n := FirecrackersNeeded(1, DefaultDamagePerFirecracker);
    assert n * 10 >= 1000;
    assert !(n - 1 < n) || (n - 1) * 10 < 1000;
  }

  /** The reward grows with the level across the table and its generated continuation. */
  lemma RewardIncreasing(a: int, b: int)
    requires 1 <= a < b
    ensures GetLevelInfo(a).value.reward < GetLevelInfo(b).value.reward
  {
    if b <= |Table| {
      assert GetLevelInfo(a).value.reward == 25 + 25 * a;
      assert GetLevelInfo(b).value.reward == 25 + 25 * b;
    } else if a <= |Table| {
      assert GetLevelInfo(a).value.reward == 25 + 25 * a;
    }
  }
}
