/**
 * The classifications the application's tests expect, each derived from the
 * classification rules (one lemma per name keeps each proof small).
 */
module ClassifierExamples {
  import opened Types
  import opened Classifier

  // Every example name is written without ASCII characters, so lower-casing
  // leaves it as it is and the conditions below are checked on the name itself.

  lemma FoodWord(name: string, kw: string, i: int)
    requires forall j :: 0 <= j < |name| ==> name[j] as int >= 128
    requires kw in FoodKeywords && OccursAt(name, kw, i)
    ensures Classify(name) == Food
  {
    ToLowerNonAscii(name);
    FoodAt(name, kw, i);
  }

  /** A character outside ASCII that starts no food keyword. */
  ghost predicate FoodFree(c: char)
  {
    c as int >= 128 && !FoodInitial(c)
  }

  /** A character outside ASCII that starts no keyword at all. */
  ghost predicate KeywordFree(c: char)
  {
    FoodFree(c) && !DailyInitial(c)
  }

  lemma DailyWord(name: string, kw: string, i: int)
    requires forall j :: 0 <= j < |name| ==> FoodFree(name[j])
    requires kw in DailyKeywords && OccursAt(name, kw, i)
    ensures Classify(name) == Daily
  {
    ToLowerNonAscii(name);
    DailyAt(name, kw, i);
  }

  // The character-by-character conditions are stated on the characters
  // themselves, one argument each, for the lengths the examples need.

  lemma DailyWord2(a: char, b: char, kw: string, i: int)
    requires FoodFree(a) && FoodFree(b)
    requires kw in DailyKeywords && OccursAt([a, b], kw, i)
    ensures Classify([a, b]) == Daily
  {
    DailyWord([a, b], kw, i);
  }

  lemma DailyWord5(a: char, b: char, c: char, d: char, e: char, kw: string, i: int)
    requires FoodFree(a) && FoodFree(b) && FoodFree(c) && FoodFree(d) && FoodFree(e)
    requires kw in DailyKeywords && OccursAt([a, b, c, d, e], kw, i)
    ensures Classify([a, b, c, d, e]) == Daily
  {
    DailyWord([a, b, c, d, e], kw, i);
  }

  lemma OtherWord(name: string)
    requires forall j :: 0 <= j < |name| ==> KeywordFree(name[j])
    ensures Classify(name) == Other
  {
    ToLowerNonAscii(name);
    NoInitialIsOther(name);
  }

  lemma OtherWord1(a: char)
    requires KeywordFree(a)
    ensures Classify([a]) == Other
  {
    OtherWord([a]);
  }

  lemma OtherWord2(a: char, b: char)
    requires KeywordFree(a) && KeywordFree(b)
    ensures Classify([a, b]) == Other
  {
    OtherWord([a, b]);
  }

  lemma MilkIsFood()
    ensures Classify("牛乳") == Food
  {
    FoodWord("牛乳", "牛乳", 0);
  }

  lemma EggIsFood()
    ensures Classify("卵") == Food
  {
    FoodWord("卵", "卵", 0);
  }

  lemma PorkIsFood()
    ensures Classify("豚肉") == Food
  {
    FoodWord("豚肉", "肉", 1);
  }

  lemma BreadIsFood()
    ensures Classify("パン") == Food
  {
    FoodWord("パン", "パン", 0);
  }

  lemma AppleIsFood()
    ensures Classify("りんご") == Food
  {
    FoodWord("りんご", "りんご", 0);
  }

  lemma SoySauceIsFood()
    ensures Classify("醤油") == Food
  {
    FoodWord("醤油", "醤油", 0);
  }

  lemma BeerIsFood()
    ensures Classify("ビール") == Food
  {
    FoodWord("ビール", "ビール", 0);
  }

  lemma ShampooIsDaily()
    ensures Classify("シャンプー") == Daily
  {
    DailyWord5('シ', 'ャ', 'ン', 'プ', 'ー', "シャンプー", 0);
  }

  lemma TissueIsDaily()
    ensures Classify("ティッシュ") == Daily
  {
    DailyWord5('テ', 'ィ', 'ッ', 'シ', 'ュ', "ティッシュ", 0);
  }

  lemma DetergentIsDaily()
    ensures Classify("洗剤") == Daily
  {
    DailyWord2('洗', '剤', "洗剤", 0);
  }

  lemma BatteryIsDaily()
    ensures Classify("電池") == Daily
  {
    DailyWord2('電', '池', "電池", 0);
  }

  lemma BookIsOther()
    ensures Classify("本") == Other
  {
    OtherWord1('本');
  }

  lemma PenIsOther()
    ensures Classify("ペン") == Other
  {
    OtherWord2('ペ', 'ン');
  }

  /**
   * Food is tested first, so the daily keyword 化粧水 (lotion), which contains the
   * food keyword 水 (water), never yields Daily.
   */
  lemma LotionIsFood()
    ensures "化粧水" in DailyKeywords && Mentions("化粧水", DailyKeywords)
    ensures Classify("化粧水") == Food
  {
    assert "化粧水" in DailySkinCare;
    assert OccursAt(ToLower("化粧水"), "化粧水", 0);
    FoodWord("化粧水", "水", 2);
  }

  /** When nothing is detected the user's pick stands; otherwise the detected category wins. */
  lemma FinalCategoryExamples()
    ensures FinalCategory("本", Daily) == Daily
    ensures FinalCategory("牛乳", Daily) == Food
  {
    BookIsOther();
    MilkIsFood();
  }
}
