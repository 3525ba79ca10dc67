/**
 * The keyword classifier of the shopping list: a name is lower-cased and then
 * tested against a list of food keywords and, failing that, a list of daily-goods
 * keywords; the first list with a keyword occurring in the name decides.
 */
module Classifier {
  import opened Types

  // The keyword lists, in the order they are tested. Each list is written as the
  // concatenation of its rows, grouped by kind of goods.

  const FoodStaples: seq<string> := ["野菜", "肉", "魚", "パン", "牛乳", "卵", "米", "ご飯", "果物"]
  const FoodProduce: seq<string> := ["りんご", "バナナ", "みかん", "トマト", "キャベツ", "レタス"]
  const FoodMeats: seq<string> := ["豚", "鶏", "牛", "ハム", "ソーセージ", "ベーコン"]
  const FoodSoyAndDairy: seq<string> := ["豆腐", "納豆", "ヨーグルト", "チーズ", "バター"]
  const FoodSeasonings: seq<string> := ["醤油", "味噌", "塩", "砂糖", "油", "酢", "マヨネーズ", "ケチャップ"]
  const FoodNoodles: seq<string> := ["ラーメン", "うどん", "そば", "パスタ", "カレー"]
  const FoodSnacksAndDrinks: seq<string> := ["お菓子", "チョコ", "クッキー", "アイス", "ジュース", "お茶", "コーヒー"]
  const FoodAlcoholAndWater: seq<string> := ["ビール", "酒", "ワイン", "水"]

  const FoodKeywords: seq<string> :=
    FoodStaples + FoodProduce + FoodMeats + FoodSoyAndDairy +
    FoodSeasonings + FoodNoodles + FoodSnacksAndDrinks + FoodAlcoholAndWater

  const DailyBath: seq<string> := ["シャンプー", "リンス", "石鹸", "ボディソープ", "歯磨き", "歯ブラシ"]
  const DailyPaper: seq<string> := ["トイレットペーパー", "ティッシュ", "キッチンペーパー", "ゴミ袋"]
  const DailyCleaning: seq<string> := ["洗剤", "柔軟剤", "スポンジ", "ラップ", "アルミホイル", "ジップロック"]
  const DailyHousehold: seq<string> := ["電池", "電球", "薬", "絆創膏", "マスク", "消毒"]
  const DailySkinCare: seq<string> := ["ハンドソープ", "ボディクリーム", "化粧水", "日焼け止め"]

  const DailyKeywords: seq<string> :=
    DailyBath + DailyPaper + DailyCleaning + DailyHousehold + DailySkinCare

  /** Lower-casing of one character; only the ASCII letters A-Z are mapped. */
  function LowerChar(c: char): char
  {
    if 'A' <= c <= 'Z' then (c as int + 32) as char else c
  }

  function ToLower(s: string): string
  {
    seq(|s|, i requires 0 <= i < |s| => LowerChar(s[i]))
  }

  /** Lower-casing leaves a text without ASCII characters as it is. */
  lemma ToLowerNonAscii(s: string)
    requires forall i :: 0 <= i < |s| ==> s[i] as int >= 128
    ensures ToLower(s) == s
  {
  }

  predicate StartsWith(s: string, kw: string)
  {
    |kw| <= |s| && s[..|kw|] == kw
  }

  /** `s.includes(kw)`, computed as a scan over the start positions of `s`. */
  predicate Includes(s: string, kw: string)
    decreases |s|
  {
    StartsWith(s, kw) || (|s| > 0 && Includes(s[1..], kw))
  }

  /** `kws.some(kw => s.includes(kw))`, scanning the keywords in order. */
  predicate AnyIncluded(s: string, kws: seq<string>)
    decreases |kws|
  {
    |kws| > 0 && (Includes(s, kws[0]) || AnyIncluded(s, kws[1..]))
  }

  /** `classifyCategory`: food keywords are tested before daily keywords. */
  function Classify(name: string): Category
  {
    var lower := ToLower(name);
    if AnyIncluded(lower, FoodKeywords) then Food
    else if AnyIncluded(lower, DailyKeywords) then Daily
    else Other
  }

  /** The category chosen when the user adds a name: the detected one unless it is Other. */
  function FinalCategory(name: string, picked: Category): Category
  {
    var detected := Classify(name);
    if detected != Other then detected else picked
  }

  // ---------------------------------------------------------------------------
  // Reference definitions: an occurrence at an explicit offset.

  ghost predicate OccursAt(s: string, kw: string, i: int)
  {
    0 <= i && i + |kw| <= |s| && s[i..i + |kw|] == kw
  }

  /** Some keyword of `kws` occurs somewhere in the lower-cased `name`. */
  ghost predicate Mentions(name: string, kws: seq<string>)
  {
    exists kw, i :: kw in kws && OccursAt(ToLower(name), kw, i)
  }

  /** An occurrence in the tail of `s` is an occurrence in `s`, one position later. */
  lemma OccursInTail(s: string, kw: string, i: int)
    requires |s| > 0
    ensures OccursAt(s[1..], kw, i) <==> i + 1 > 0 && OccursAt(s, kw, i + 1)
  {
    if 0 <= i && i + |kw| <= |s| - 1 {
      assert s[1..][i..i + |kw|] == s[i + 1..i + 1 + |kw|];
    }
  }

  lemma {:induction false} IncludesIff(s: string, kw: string)
    ensures Includes(s, kw) <==> exists i :: OccursAt(s, kw, i)
    decreases |s|
  {
    if StartsWith(s, kw) {
      assert OccursAt(s, kw, 0);
    } else if |s| == 0 {
      assert forall i :: !OccursAt(s, kw, i);
    } else {
      IncludesIff(s[1..], kw);
      if Includes(s[1..], kw) {
        var i :| OccursAt(s[1..], kw, i);
        OccursInTail(s, kw, i);
      } else {
        forall i | OccursAt(s, kw, i) ensures false {
          OccursInTail(s, kw, i - 1);
        }
      }
    }
  }

  lemma {:induction false} AnyIncludedIff(s: string, kws: seq<string>)
    ensures AnyIncluded(s, kws) <==> exists kw :: kw in kws && Includes(s, kw)
    decreases |kws|
  {
    if |kws| > 0 {
      AnyIncludedIff(s, kws[1..]);
      if Includes(s, kws[0]) {
        assert kws[0] in kws;
      } else if AnyIncluded(s, kws[1..]) {
        var kw :| kw in kws[1..] && Includes(s, kw);
        assert kw in kws;
      } else {
        forall kw | kw in kws ensures !Includes(s, kw) {
          assert kw == kws[0] || kw in kws[1..];
        }
      }
    }
  }

  lemma MentionsIff(name: string, kws: seq<string>)
    ensures AnyIncluded(ToLower(name), kws) <==> Mentions(name, kws)
  {
    var s := ToLower(name);
    AnyIncludedIff(s, kws);
    forall kw | kw in kws {
      IncludesIff(s, kw);
    }
  }

  // ---------------------------------------------------------------------------
  // The classification rules.

  /** A name is Food exactly when it mentions a food keyword, whatever daily keywords it also mentions. */
  lemma ClassifyFood(name: string)
    ensures Classify(name) == Food <==> Mentions(name, FoodKeywords)
  {
    MentionsIff(name, FoodKeywords);
  }

  /** A name is Daily exactly when it mentions a daily keyword and no food keyword. */
  lemma ClassifyDaily(name: string)
    ensures Classify(name) == Daily <==> !Mentions(name, FoodKeywords) && Mentions(name, DailyKeywords)
  {
    MentionsIff(name, FoodKeywords);
    MentionsIff(name, DailyKeywords);
  }

  /** A name is Other exactly when it mentions no keyword of either list. */
  lemma ClassifyOther(name: string)
    ensures Classify(name) == Other <==> !Mentions(name, FoodKeywords) && !Mentions(name, DailyKeywords)
  {
    MentionsIff(name, FoodKeywords);
    MentionsIff(name, DailyKeywords);
  }

  /** The user's pick is used exactly when the name mentions no keyword (or the pick agrees). */
  lemma FinalCategorySpec(name: string, picked: Category)
    ensures Mentions(name, FoodKeywords) ==> FinalCategory(name, picked) == Food
    ensures !Mentions(name, FoodKeywords) && Mentions(name, DailyKeywords) ==> FinalCategory(name, picked) == Daily
    ensures !Mentions(name, FoodKeywords) && !Mentions(name, DailyKeywords) ==> FinalCategory(name, picked) == picked
  {
    ClassifyOther(name);
    ClassifyFood(name);
    ClassifyDaily(name);
  }

  // ---------------------------------------------------------------------------
  // Names that mention no keyword.

  /** The characters that start a food keyword. */
  predicate FoodInitial(c: char)
  {
    c == '野' || c == '肉' || c == '魚' || c == 'パ' || c == '牛' || c == '卵' || c == '米' || c == 'ご'
    || c == '果' || c == 'り' || c == 'バ' || c == 'み' || c == 'ト' || c == 'キ' || c == 'レ' || c == '豚'
    || c == '鶏' || c == 'ハ' || c == 'ソ' || c == 'ベ' || c == '豆' || c == '納' || c == 'ヨ' || c == 'チ'
    || c == '醤' || c == '味' || c == '塩' || c == '砂' || c == '油' || c == '酢' || c == 'マ' || c == 'ケ'
    || c == 'ラ' || c == 'う' || c == 'そ' || c == 'カ' || c == 'お' || c == 'ク' || c == 'ア' || c == 'ジ'
    || c == 'コ' || c == 'ビ' || c == '酒' || c == 'ワ' || c == '水'
  }

  /** The characters that start a daily-goods keyword. */
  predicate DailyInitial(c: char)
  {
    c == 'シ' || c == 'リ' || c == '石' || c == 'ボ' || c == '歯' || c == 'ト' || c == 'テ' || c == 'キ'
    || c == 'ゴ' || c == '洗' || c == '柔' || c == 'ス' || c == 'ラ' || c == 'ア' || c == 'ジ' || c == '電'
    || c == '薬' || c == '絆' || c == 'マ' || c == '消' || c == 'ハ' || c == '化' || c == '日'
  }

  /** The characters that start a keyword of the list tested for `cat`; Other has no list. */
  predicate Initial(c: char, cat: Category)
  {
    match cat
    case Food => FoodInitial(c)
    case Daily => DailyInitial(c)
    case Other => false
  }

  /** Every keyword of `kws` is non-empty and starts with an initial of `cat`. */
  ghost predicate StartWithin(kws: seq<string>, cat: Category)
  {
    forall kw :: kw in kws ==> |kw| > 0 && Initial(kw[0], cat)
  }

  lemma StartWithinAppend(a: seq<string>, b: seq<string>, cat: Category)
    requires StartWithin(a, cat) && StartWithin(b, cat)
    ensures StartWithin(a + b, cat)
  {
    assert forall kw :: kw in a + b ==> kw in a || kw in b;
  }

  /** A list starts within `cat` when each of its keywords, taken by position, does. */
  lemma StartWithinByIndex(row: seq<string>, cat: Category)
    requires forall k :: 0 <= k < |row| ==> |row[k]| > 0 && Initial(row[k][0], cat)
    ensures StartWithin(row, cat)
  {
    forall kw | kw in row
      ensures |kw| > 0 && Initial(kw[0], cat)
    {
      var k :| 0 <= k < |row| && row[k] == kw;
    }
  }

  // One lemma per row keeps each check of a row's initials to that row.

  lemma FoodStaplesStart()
    ensures StartWithin(FoodStaples, Food)
  {
    StartWithinByIndex(FoodStaples, Food);
  }

  lemma FoodProduceStart()
    ensures StartWithin(FoodProduce, Food)
  {
    StartWithinByIndex(FoodProduce, Food);
  }

  lemma FoodMeatsStart()
    ensures StartWithin(FoodMeats, Food)
  {
    StartWithinByIndex(FoodMeats, Food);
  }

  lemma FoodSoyAndDairyStart()
    ensures StartWithin(FoodSoyAndDairy, Food)
  {
    StartWithinByIndex(FoodSoyAndDairy, Food);
  }

  lemma FoodSeasoningsStart()
    ensures StartWithin(FoodSeasonings, Food)
  {
    StartWithinByIndex(FoodSeasonings, Food);
  }

  lemma FoodNoodlesStart()
    ensures StartWithin(FoodNoodles, Food)
  {
    StartWithinByIndex(FoodNoodles, Food);
  }

  lemma FoodSnacksAndDrinksStart()
    ensures StartWithin(FoodSnacksAndDrinks, Food)
  {
    StartWithinByIndex(FoodSnacksAndDrinks, Food);
  }

  lemma FoodAlcoholAndWaterStart()
    ensures StartWithin(FoodAlcoholAndWater, Food)
  {
    StartWithinByIndex(FoodAlcoholAndWater, Food);
  }

  lemma DailyBathStart()
    ensures StartWithin(DailyBath, Daily)
  {
    StartWithinByIndex(DailyBath, Daily);
  }

  lemma DailyPaperStart()
    ensures StartWithin(DailyPaper, Daily)
  {
    StartWithinByIndex(DailyPaper, Daily);
  }

  lemma DailyCleaningStart()
    ensures StartWithin(DailyCleaning, Daily)
  {
    StartWithinByIndex(DailyCleaning, Daily);
  }

  lemma DailyHouseholdStart()
    ensures StartWithin(DailyHousehold, Daily)
  {
    StartWithinByIndex(DailyHousehold, Daily);
  }

  lemma DailySkinCareStart()
    ensures StartWithin(DailySkinCare, Daily)
  {
    StartWithinByIndex(DailySkinCare, Daily);
  }

  lemma FoodKeywordsStartWithin()
    ensures StartWithin(FoodKeywords, Food)
  {
    var food := FoodStaples;
    FoodStaplesStart();
    FoodProduceStart();
    StartWithinAppend(food, FoodProduce, Food);
    food := food + FoodProduce;
    FoodMeatsStart();
    StartWithinAppend(food, FoodMeats, Food);
    food := food + FoodMeats;
    FoodSoyAndDairyStart();
    StartWithinAppend(food, FoodSoyAndDairy, Food);
    food := food + FoodSoyAndDairy;
    FoodSeasoningsStart();
    StartWithinAppend(food, FoodSeasonings, Food);
    food := food + FoodSeasonings;
    FoodNoodlesStart();
    StartWithinAppend(food, FoodNoodles, Food);
    food := food + FoodNoodles;
    FoodSnacksAndDrinksStart();
    StartWithinAppend(food, FoodSnacksAndDrinks, Food);
    food := food + FoodSnacksAndDrinks;
    FoodAlcoholAndWaterStart();
    StartWithinAppend(food, FoodAlcoholAndWater, Food);
  }

  lemma DailyKeywordsStartWithin()
    ensures StartWithin(DailyKeywords, Daily)
  {
    var daily := DailyBath;
    DailyBathStart();
    DailyPaperStart();
    StartWithinAppend(daily, DailyPaper, Daily);
    daily := daily + DailyPaper;
    DailyCleaningStart();
    StartWithinAppend(daily, DailyCleaning, Daily);
    daily := daily + DailyCleaning;
    DailyHouseholdStart();
    StartWithinAppend(daily, DailyHousehold, Daily);
    daily := daily + DailyHousehold;
    DailySkinCareStart();
    StartWithinAppend(daily, DailySkinCare, Daily);
  }

  /** A name none of whose (lower-cased) characters starts a keyword mentions no keyword. */
  lemma NoInitialMentionsNone(name: string, kws: seq<string>, cat: Category)
    requires StartWithin(kws, cat)
    requires forall i :: 0 <= i < |ToLower(name)| ==> !Initial(ToLower(name)[i], cat)
    ensures !Mentions(name, kws)
  {
    var s := ToLower(name);
    forall kw, i | kw in kws
      ensures !OccursAt(s, kw, i)
    {
      if 0 <= i && i + |kw| <= |s| {
        assert s[i..i + |kw|][0] == s[i];
      }
    }
  }

  /** Neither list of initials holds an ASCII character. */
  lemma InitialsOutsideAscii()
    ensures forall c, cat :: Initial(c, cat) ==> c as int >= 128
  {
  }

  /** A food keyword found in the lower-cased name makes it Food. */
  lemma FoodAt(name: string, kw: string, i: int)
    requires kw in FoodKeywords && OccursAt(ToLower(name), kw, i)
    ensures Classify(name) == Food
  {
    ClassifyFood(name);
  }

  /** A daily keyword found in a name with no character that starts a food keyword makes it Daily. */
  lemma DailyAt(name: string, kw: string, i: int)
    requires forall j :: 0 <= j < |ToLower(name)| ==> !FoodInitial(ToLower(name)[j])
    requires kw in DailyKeywords && OccursAt(ToLower(name), kw, i)
    ensures Classify(name) == Daily
  {
    FoodKeywordsStartWithin();
    NoInitialMentionsNone(name, FoodKeywords, Food);
    ClassifyDaily(name);
  }

  /** A name with no character that starts any keyword is Other. */
  lemma NoInitialIsOther(name: string)
    requires forall j :: 0 <= j < |ToLower(name)| ==> !FoodInitial(ToLower(name)[j])
    requires forall j :: 0 <= j < |ToLower(name)| ==> !DailyInitial(ToLower(name)[j])
    ensures Classify(name) == Other
  {
    FoodKeywordsStartWithin();
    DailyKeywordsStartWithin();
    NoInitialMentionsNone(name, FoodKeywords, Food);
    NoInitialMentionsNone(name, DailyKeywords, Daily);
    ClassifyOther(name);
  }

  /**
   * A name made of ASCII characters only, among them the empty name and names of
   * blanks, is always Other.
   */
  lemma AsciiNameIsOther(name: string)
    requires forall i :: 0 <= i < |name| ==> name[i] as int < 128
    ensures Classify(name) == Other
  {
    InitialsOutsideAscii();
    NoInitialIsOther(name);
  }

  lemma EmptyNameIsOther()
    ensures Classify("") == Other
  {
    AsciiNameIsOther("");
  }
}
