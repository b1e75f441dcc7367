/** The omikuji fortune table and its draw (japan_omikuji/js/fortunes.js): six levels
    with weights, a weighted draw by cumulative subtraction, the message of every level
    in six categories, and a colour per level.

    The `Math.random()` sample is a parameter, and the draw is computed on real numbers
    (the source uses floating point). */
module Fortunes {
  import opened Wrappers

  datatype FortuneLevel = FortuneLevel(id: string, japanese: string, english: string, weight: nat)

  /** The levels, in the order the draw walks them. */
  const Levels: seq<FortuneLevel> := [
    FortuneLevel("daikichi", "大吉", "Great Fortune", 15),
    FortuneLevel("kichi", "吉", "Good Fortune", 25),
    FortuneLevel("chukichi", "中吉", "Middle Fortune", 20),
    FortuneLevel("shokichi", "小吉", "Small Fortune", 20),
    FortuneLevel("suekichi", "末吉", "Future Fortune", 15),
    FortuneLevel("kyo", "凶", "Bad Fortune", 5)
  ]

  /** `levels[1]`, the level the draw falls back to after the loop. */
  const Fallback := FortuneLevel("kichi", "吉", "Good Fortune", 25)

  /** The sum of the weights, added from the left as the `reduce` does. */
  function SumWeights(ls: seq<FortuneLevel>): nat {
    if ls == [] then 0 else SumWeights(ls[..|ls| - 1]) + ls[|ls| - 1].weight
  }

  /** The cumulative weight of the first `k` levels. */
  function Prefix(k: nat): nat
    requires k <= |Levels|
  {
    SumWeights(Levels[..k])
  }

  const TotalWeight := SumWeights(Levels)

  /** The cumulative weight up to and including level `j`. */
  function Reach(j: nat): nat
    requires j < |Levels|
  {
    Prefix(j + 1)
  }

  lemma PrefixStep(k: nat)
    requires k < |Levels|
    ensures Prefix(k + 1) == Prefix(k) + Levels[k].weight
  {
    assert Levels[..k + 1][..k] == Levels[..k];
  }

  lemma {:induction false} PrefixMonotone(i: nat, j: nat)
    requires i <= j <= |Levels|
    ensures Prefix(i) <= Prefix(j)
  {
    if i < j {
      PrefixStep(j - 1);
      PrefixMonotone(i, j - 1);
    }
  }

  /** The cumulative weights are 0, 15, 40, 60, 80, 95 and 100: the weights sum to 100. */
  lemma PrefixValues()
    ensures Prefix(0) == 0 && Prefix(1) == 15 && Prefix(2) == 40 && Prefix(3) == 60
    ensures Prefix(4) == 80 && Prefix(5) == 95 && Prefix(6) == 100
    ensures TotalWeight == 100
  {
    PrefixStep(0); PrefixStep(1); PrefixStep(2); PrefixStep(3); PrefixStep(4); PrefixStep(5);
    assert Levels[..6] == Levels;
  }

  /** The first level, from `k` on, whose cumulative weight reaches `x`. */
  function FirstCovering(x: real, k: nat): (r: nat)
    requires k < |Levels| && x <= Prefix(|Levels|) as real
    ensures k <= r < |Levels| && x <= Reach(r) as real
    ensures forall j :: k <= j < r ==> x > Reach(j) as real
    decreases |Levels| - k
  {
    if x <= Prefix(k + 1) as real then k else FirstCovering(x, k + 1)
  }

  /** The index of the first level whose cumulative weight is at least `x`. */
  function IndexFor(x: real): (r: nat)
    requires x <= Prefix(|Levels|) as real
    ensures r < |Levels| && x <= Reach(r) as real
    ensures forall j :: 0 <= j < r ==> x > Reach(j) as real
  {
    FirstCovering(x, 0)
  }

  /** The level the draw returns for the sample `sample`: the first one whose cumulative
      weight reaches `sample * totalWeight`, or the fallback past the last one. */
  function Selected(sample: real): FortuneLevel {
    var x := sample * TotalWeight as real;
    if x <= Prefix(|Levels|) as real then Levels[IndexFor(x)] else Fallback
  }

  /** One step of the draw: with `random` what is left of the scaled sample after the
      first `i` levels, taking level `i`'s weight leaves what is left after `i + 1`
      levels, and the draw stopping there returns the level Selected describes. */
  lemma DrawStep(sample: real, random: real, i: nat)
    requires i < |Levels| && random == sample * TotalWeight as real - Prefix(i) as real && (i > 0 ==> random > 0.0)
    ensures random - Levels[i].weight as real == sample * TotalWeight as real - Prefix(i + 1) as real
    ensures random - Levels[i].weight as real <= 0.0 ==> Selected(sample) == Levels[i]
  {
    PrefixStep(i);
    if random - Levels[i].weight as real <= 0.0 {
      PrefixMonotone(i + 1, |Levels|);
      SelectionInterval(sample * TotalWeight as real, i);
    }
  }

  /** The draw running past the last level returns the fallback Selected describes. */
  lemma PastEnd(sample: real, random: real)
    requires random == sample * TotalWeight as real - Prefix(|Levels|) as real && random > 0.0
    ensures Selected(sample) == Fallback
  {
  }

  /** selectFortuneLevel. */
  method SelectFortuneLevel(sample: real) returns (level: FortuneLevel)
    ensures level == Selected(sample)
  {
    var totalWeight := TotalWeight;
    var random := sample * totalWeight as real;
    for i := 0 to |Levels|
      invariant random == sample * TotalWeight as real - Prefix(i) as real
      invariant i > 0 ==> random > 0.0
    {
      DrawStep(sample, random, i);
      random := random - Levels[i].weight as real;
      if random <= 0.0 {
        return Levels[i];
      }
    }
    PastEnd(sample, random);
    return Fallback;
  }

  /** Level `k` is drawn exactly on the samples whose scaled value lies in the half-open
      interval (Prefix(k), Prefix(k + 1)] (closed at 0 for the first level), an interval
      as long as the level's weight. */
  lemma SelectionInterval(x: real, k: nat)
    requires x <= Prefix(|Levels|) as real && k < |Levels|
    ensures IndexFor(x) == k <==> (k == 0 || x > Prefix(k) as real) && x <= Prefix(k + 1) as real
    ensures Prefix(k + 1) - Prefix(k) == Levels[k].weight
  {
    PrefixStep(k);
    var r := IndexFor(x);
    if (k == 0 || x > Prefix(k) as real) && x <= Prefix(k + 1) as real {
      if r < k {
        PrefixMonotone(r + 1, k);
      }
    }
  }

  /** For every sample `Math.random()` can produce the fallback is never taken, and the
      draw returns one of the six levels. */
  lemma SelectedInTable(sample: real)
    requires 0.0 <= sample < 1.0
    ensures sample * TotalWeight as real <= Prefix(|Levels|) as real
    ensures Selected(sample) == Levels[IndexFor(sample * TotalWeight as real)]
    ensures Selected(sample) in Levels
  {
    PrefixValues();
    assert sample * 100.0 < 100.0;
  }

  /** Distinct levels have distinct ids. */
  lemma LevelIdsDistinct(i: nat, j: nat)
    requires i < |Levels| && j < |Levels| && Levels[i].id == Levels[j].id
    ensures i == j
  {
  }

  /** The great fortune is drawn exactly for a scaled sample up to 15, and the bad
      fortune exactly for one above 95. */
  lemma SelectionExtremes(x: real)
    requires 0.0 <= x < 100.0
    ensures x <= Prefix(|Levels|) as real
    ensures Levels[IndexFor(x)].id == "daikichi" <==> x <= 15.0
    ensures Levels[IndexFor(x)].id == "kyo" <==> x > 95.0
  {
    PrefixValues();
    SelectionInterval(x, 0);
    SelectionInterval(x, 5);
    var r := IndexFor(x);
    if Levels[r].id == "daikichi" {
      LevelIdsDistinct(r, 0);
    }
    if Levels[r].id == "kyo" {
      LevelIdsDistinct(r, 5);
    }
  }

  // ---------------------------------------------------------------------------
  // Messages

  datatype Category = Wishes | Love | Health | Business | Studies | Travel

  const Categories: seq<Category> := [Wishes, Love, Health, Business, Studies, Travel]

  /** The message of each level, per category. */
  const Messages: map<Category, map<string, string>> := map[
    Wishes := map[
      "daikichi" := "Your wishes will come true beyond your expectations. The time is right for new beginnings.",
      "kichi" := "Your sincere wishes will be granted. Be patient and persistent.",
      "chukichi" := "Your wishes will be fulfilled with steady effort. Keep faith.",
      "shokichi" := "Small wishes will come true. Focus on what matters most.",
      "suekichi" := "Your wishes will be realized in time. Wait for the right moment.",
      "kyo" := "Be cautious with your wishes. Reflect on what you truly desire."],
    Love := map[
      "daikichi" := "A wonderful encounter awaits. Your heart will be filled with joy.",
      "kichi" := "Love is blossoming. Nurture your relationships with care.",
      "chukichi" := "Steady progress in matters of the heart. Communication is key.",
      "shokichi" := "Small gestures of affection will strengthen bonds.",
      "suekichi" := "Love will grow slowly but surely. Be patient.",
      "kyo" := "Challenges in relationships. Work on understanding and compromise."],
    Health := map[
      "daikichi" := "Excellent health and vitality. Your energy is at its peak.",
      "kichi" := "Good health continues. Maintain your positive habits.",
      "chukichi" := "Generally healthy. Pay attention to rest and balance.",
      "shokichi" := "Minor concerns may arise. Take preventive care.",
      "suekichi" := "Health improves gradually. Be mindful of your body.",
      "kyo" := "Take extra care of your health. Rest and recuperation are needed."],
    Business := map[
      "daikichi" := "Great success in your endeavors. Opportunities abound.",
      "kichi" := "Your hard work will be recognized. Progress is steady.",
      "chukichi" := "Moderate success. Keep working diligently.",
      "shokichi" := "Small achievements lead to bigger things. Stay focused.",
      "suekichi" := "Success comes later. Prepare and wait for the right time.",
      "kyo" := "Difficulties in work. Seek advice and avoid hasty decisions."],
    Studies := map[
      "daikichi" := "Outstanding results in learning. Your mind is sharp and receptive.",
      "kichi" := "Good progress in studies. Your efforts will pay off.",
      "chukichi" := "Steady advancement in knowledge. Keep studying consistently.",
      "shokichi" := "Small steps forward. Focus on fundamentals.",
      "suekichi" := "Learning takes time. Be patient with yourself.",
      "kyo" := "Challenges in studies. Seek help and change your approach."],
    Travel := map[
      "daikichi" := "Excellent time for travel. Adventures and discoveries await.",
      "kichi" := "Good journeys ahead. Travel will bring joy and insight.",
      "chukichi" := "Travel is favorable. Plan carefully for best results.",
      "shokichi" := "Short trips are beneficial. Enjoy nearby destinations.",
      "suekichi" := "Delay major travel. Better opportunities will come.",
      "kyo" := "Avoid unnecessary travel. Stay close to home for now."]
  ]

  /** `messages[category][id]`; None where JavaScript yields undefined. */
  function Message(c: Category, id: string): Option<string> {
    if c in Messages && id in Messages[c] then Some(Messages[c][id]) else None
  }

  /** Every level has a message in every category. */
  lemma MessagesTotal(c: Category, i: nat)
    requires i < |Levels|
    ensures Message(c, Levels[i].id).Some?
  {
    var id := Levels[i].id;
    assert id == "daikichi" || id == "kichi" || id == "chukichi" || id == "shokichi" || id == "suekichi" || id == "kyo";
  }

  /** The `level` part of a generated fortune. */
  datatype LevelSummary = LevelSummary(id: string, japanese: string, english: string)

  /** The `categories` part of a generated fortune. */
  datatype CategoryTexts = CategoryTexts(
    wishes: Option<string>, love: Option<string>, health: Option<string>,
    business: Option<string>, studies: Option<string>, travel: Option<string>)

  datatype Fortune = Fortune(level: LevelSummary, categories: CategoryTexts)

  function Text(t: CategoryTexts, c: Category): Option<string> {
    match c
    case Wishes => t.wishes
    case Love => t.love
    case Health => t.health
    case Business => t.business
    case Studies => t.studies
    case Travel => t.travel
  }

  /** The fortune generateFortune builds for a level, without its timestamp. */
  function FortuneOf(level: FortuneLevel): Fortune {
    Fortune(
      LevelSummary(level.id, level.japanese, level.english),
      CategoryTexts(Message(Wishes, level.id), Message(Love, level.id), Message(Health, level.id),
                    Message(Business, level.id), Message(Studies, level.id), Message(Travel, level.id)))
  }

  /** generateFortune: draw a level and look up its six messages. */
  method GenerateFortune(sample: real) returns (f: Fortune)
    ensures f == FortuneOf(Selected(sample))
  {
    var level := SelectFortuneLevel(sample);
    f := Fortune(
      LevelSummary(level.id, level.japanese, level.english),
      CategoryTexts(Message(Wishes, level.id), Message(Love, level.id), Message(Health, level.id),
                    Message(Business, level.id), Message(Studies, level.id), Message(Travel, level.id)));
  }

  /** A fortune drawn of a table level has the level's names and, in every category,
      that level's message: no category is ever undefined. */
  lemma FortuneOfTableLevel(i: nat, c: Category)
    requires i < |Levels|
    ensures FortuneOf(Levels[i]).level == LevelSummary(Levels[i].id, Levels[i].japanese, Levels[i].english)
    ensures Text(FortuneOf(Levels[i]).categories, c) == Message(c, Levels[i].id)
    ensures Text(FortuneOf(Levels[i]).categories, c).Some?
  {
    MessagesTotal(c, i);
  }

  /** The fortunes of the table: one per level. */
  predicate IsTableFortune(f: Fortune) {
    exists i :: 0 <= i < |Levels| && f == FortuneOf(Levels[i])
  }

  /** A fortune of a table level's id with a message in every category. */
  predicate Complete(f: Fortune) {
    && (exists i :: 0 <= i < |Levels| && Levels[i].id == f.level.id)
    && forall c :: Text(f.categories, c).Some?
  }

  /** The fortune of every table level is complete. */
  lemma TableFortuneComplete(i: nat)
    requires i < |Levels|
    ensures Complete(FortuneOf(Levels[i]))
  {
    forall c {
      FortuneOfTableLevel(i, c);
    }
  }

  /** Every fortune a `Math.random()` sample yields is the fortune of a table level,
      complete in all six categories. */
  lemma DrawnFortuneComplete(sample: real)
    requires 0.0 <= sample < 1.0
    ensures IsTableFortune(FortuneOf(Selected(sample)))
    ensures Complete(FortuneOf(Selected(sample)))
  {
    SelectedInTable(sample);
    TableFortuneComplete(IndexFor(sample * TotalWeight as real));
  }

  // ---------------------------------------------------------------------------
  // Colours

  const DefaultColor := "#000000"

  const Colors: map<string, string> := map[
    "daikichi" := "#CC0000",
    "kichi" := "#D4AF37",
    "chukichi" := "#FF6B6B",
    "shokichi" := "#FFA500",
    "suekichi" := "#4A90E2",
    "kyo" := "#666666"
  ]

  /** The colour table has exactly the level ids as keys. */
  lemma ColorKeys()
    ensures forall id :: id in Colors <==> exists i :: 0 <= i < |Levels| && Levels[i].id == id
  {
    forall id | id in Colors
      ensures exists i :: 0 <= i < |Levels| && Levels[i].id == id
    {
      if id == "daikichi" { assert Levels[0].id == id; }
      else if id == "kichi" { assert Levels[1].id == id; }
      else if id == "chukichi" { assert Levels[2].id == id; }
      else if id == "shokichi" { assert Levels[3].id == id; }
      else if id == "suekichi" { assert Levels[4].id == id; }
      else { assert Levels[5].id == id; }
    }
  }

  /** getLevelColor: the level's colour, black for an id that is not a level. */
  function GetLevelColor(id: string): (c: string)
    ensures c == DefaultColor <==> forall i :: 0 <= i < |Levels| ==> Levels[i].id != id
  {
    ColorKeys();
    if id in Colors && Colors[id] != "" then Colors[id] else DefaultColor
  }

  /** The six levels have six distinct colours. */
  lemma ColorsDistinct(i: nat, j: nat)
    requires i < |Levels| && j < |Levels| && i != j
    ensures GetLevelColor(Levels[i].id) != GetLevelColor(Levels[j].id)
  {
  }
}
