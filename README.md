# Shopping memo: item store and category classifier

A model of the data layer of a shopping-list app, `utils/storage.ts`, which has two parts.

**Keyword classifier.** `classifyCategory` lower-cases a name and checks it against two fixed keyword lists:

- if any food keyword is a substring, the name is 食品 (Food);
- otherwise, if any daily-goods keyword is a substring, it is 日用品 (Daily);
- otherwise it is その他 (Other).

The screen that adds items uses the detected category unless it is その他. In that case it uses the category the user picked.

**Item store.** The store keeps two values in a key-value store:

- the shopping list under `shopping_items`;
- a frequency index under `frequent_items`, which records how often each name was added.

`addItem`, `toggleItem`, `deleteItem` and `updateFrequentItem` read a key, change what they read and write it back; the first three also return the result. `getItems` and `getFrequentItems` only read, and `saveItems` only writes. A missing, empty or unreadable key reads as the empty list.

The Dafny model has six modules:

- `Types` (types.dfy): the records, the three categories and the optional completion time.
- `Classifier` (classifier.dfy): the keyword lists, and `Classify` proved against a reference definition. That definition says "some keyword occurs at some offset of the lower-cased name".
- `ItemList` (item_list.dfy): find by id, remove by id, toggle the first item with an id, and the decimal ids made from clock readings.
- `Frequency` (frequency.dfy):
  - bump a name in the index;
  - the stable descending sort by count, specified as a function and carried out by an in-place insertion sort on an array;
  - the first-ten cut.
- `Storage` (storage.dfy): the class `ItemStore`. It holds the two stored values as fields, and its methods mirror the exported operations.
- `ClassifierExamples` and `StorageExamples` (classifier_examples.dfy, storage_examples.dfy): the outcomes the application's tests expect, derived from the model.

Modelling choices:

- The clock is a parameter. `AddItem` takes two readings, `idTime` for the id and `createdTime` for `createdAt`, because the source reads the clock twice. Ids need not be unique.
- Stored text is modelled as its decoded outcome, `Stored<T> = Missing | Corrupt | Valid(entries)`.
- Because food is tested first, the daily keyword 化粧水 contains the food keyword 水 and so can never yield 日用品. `ClassifierExamples.LotionIsFood` proves this.

## Model

| member | source | states |
|---|---|---|
| Classifier.Classify | utils/storage.ts:79-108 | `classifyCategory`; no ensures of its own, specified by ClassifyFood, ClassifyDaily and ClassifyOther against the reference `Mentions` |
| Classifier.FinalCategory | app/index.tsx:55-56 | the category used when an item is added; no ensures of its own, specified by FinalCategorySpec |
| Classifier.ToLower | utils/storage.ts:99 | `toLowerCase` restricted to A-Z (see Left out); ToLowerNonAscii states that it leaves text without ASCII characters unchanged |
| Classifier.ToLowerNonAscii | utils/storage.ts:99 | lower-casing leaves a text with no ASCII character as it is |
| Classifier.Includes | utils/storage.ts:101 | `String.prototype.includes`; no ensures of its own, specified by IncludesIff |
| Classifier.AnyIncluded | utils/storage.ts:101-104 | `Array.prototype.some` over the keywords; no ensures of its own, specified by AnyIncludedIff |
| Classifier.IncludesIff | utils/storage.ts:101 | the substring test holds exactly when the keyword occurs at some offset of the text |
| Classifier.AnyIncludedIff | utils/storage.ts:101-104 | the `some` scan over a list holds exactly when some keyword of the list is a substring |
| Classifier.MentionsIff | utils/storage.ts:99-104 | scanning the lower-cased name agrees with the reference "some keyword occurs at some offset" |
| Classifier.ClassifyFood | utils/storage.ts:80-103 | a name is Food exactly when it mentions a food keyword, whatever daily keywords it also mentions |
| Classifier.ClassifyDaily | utils/storage.ts:91-106 | a name is Daily exactly when it mentions a daily keyword and no food keyword |
| Classifier.ClassifyOther | utils/storage.ts:99-107 | a name is Other exactly when it mentions no keyword of either list |
| Classifier.FinalCategorySpec | app/index.tsx:55-56 | the detected category wins when a keyword is mentioned; otherwise the user's pick is kept |
| Classifier.FoodKeywordsStartWithin | utils/storage.ts:80-89 | every food keyword is non-empty and begins with one of the listed food initials |
| Classifier.DailyKeywordsStartWithin | utils/storage.ts:91-97 | every daily keyword is non-empty and begins with one of the listed daily initials |
| Classifier.NoInitialMentionsNone | utils/storage.ts:99-104 | a name with no character that begins a keyword of a list mentions no keyword of that list |
| Classifier.InitialsOutsideAscii | utils/storage.ts:80-97 | no keyword begins with an ASCII character |
| Classifier.FoodAt | utils/storage.ts:101-103 | a food keyword at any offset of the lower-cased name makes it Food |
| Classifier.DailyAt | utils/storage.ts:101-106 | a daily keyword in a name with no food initial makes it Daily |
| Classifier.NoInitialIsOther | utils/storage.ts:99-107 | a name with no initial of either list is Other |
| Classifier.AsciiNameIsOther | utils/storage.ts:99-107 | every all-ASCII name, including blank ones, is Other |
| Classifier.EmptyNameIsOther | utils/storage.ts:99-107 | the empty name is Other |
| ClassifierExamples.MilkIsFood | __tests__/storage.test.ts:20 | 牛乳 is Food |
| ClassifierExamples.EggIsFood | __tests__/storage.test.ts:21 | 卵 is Food |
| ClassifierExamples.BreadIsFood | __tests__/storage.test.ts:22 | パン is Food |
| ClassifierExamples.AppleIsFood | __tests__/storage.test.ts:23 | りんご is Food |
| ClassifierExamples.PorkIsFood | __tests__/storage.test.ts:24 | 豚肉 is Food (肉 found at offset 1) |
| ClassifierExamples.SoySauceIsFood | __tests__/storage.test.ts:25 | 醤油 is Food |
| ClassifierExamples.BeerIsFood | __tests__/storage.test.ts:26 | ビール is Food |
| ClassifierExamples.ShampooIsDaily | __tests__/storage.test.ts:30 | シャンプー is Daily |
| ClassifierExamples.TissueIsDaily | __tests__/storage.test.ts:32 | ティッシュ is Daily |
| ClassifierExamples.DetergentIsDaily | __tests__/storage.test.ts:33 | 洗剤 is Daily |
| ClassifierExamples.BatteryIsDaily | __tests__/storage.test.ts:34 | 電池 is Daily |
| ClassifierExamples.BookIsOther | __tests__/storage.test.ts:39 | 本 is Other |
| ClassifierExamples.PenIsOther | __tests__/storage.test.ts:41 | ペン is Other |
| ClassifierExamples.LotionIsFood | utils/storage.ts:88-96 | 化粧水 is a daily keyword that the name mentions, yet the name is Food, because it contains 水 |
| ClassifierExamples.FinalCategoryExamples | app/index.tsx:55-56 | 本 with the pick Daily stays Daily; 牛乳 with the pick Daily becomes Food |
| ItemList.FindIndex | utils/storage.ts:37 | the result is -1 or a valid index holding the id, and no earlier item (no item at all for -1) has the id |
| ItemList.FindIndexFound | utils/storage.ts:37-38 | an index is found exactly when some item has the id |
| ItemList.Without | utils/storage.ts:48 | no kept item has the id; every other item keeps its multiplicity; the list does not grow |
| ItemList.WithoutAppend | utils/storage.ts:48 | removal distributes over concatenation, so kept items keep their relative order |
| ItemList.WithoutUnchanged | utils/storage.ts:48 | removal leaves the list unchanged exactly when no item has the id, and shortens it otherwise |
| ItemList.WithoutMissing | utils/storage.ts:48 | removing an id no item has returns the list as it was |
| ItemList.WithoutPresent | utils/storage.ts:48 | removing an id some item has returns a shorter list |
| ItemList.WithoutIdempotent | utils/storage.ts:48 | removing twice is removing once |
| ItemList.WithoutWellFormed | utils/storage.ts:48 | removal keeps well-formed items well formed |
| ItemList.Flipped | utils/storage.ts:39-40 | the two field updates of a toggle; no ensures of its own, specified by FlippedSpec |
| ItemList.Toggled | utils/storage.ts:37-41 | the list after a toggle; no ensures of its own, specified by ToggledSpec, ToggledKeepsIds, ToggledWellFormed and ToggleTwice |
| ItemList.FlippedSpec | utils/storage.ts:39-40 | a flip negates `completed`, stamps the time exactly when the item becomes completed, and keeps id, name, category and creation time |
| ItemList.ToggledSpec | utils/storage.ts:37-41 | the length is kept; only the first item with the id is flipped; a missing id changes nothing |
| ItemList.ToggledKeepsIds | utils/storage.ts:37-41 | no id changes, so a second toggle finds the same item |
| ItemList.ToggledWellFormed | utils/storage.ts:39-40 | toggling keeps every item well formed (stamp present exactly when completed) |
| ItemList.ToggleTwice | utils/storage.ts:35-44 | toggling twice restores every completion flag, and restores a well-formed list whose toggled item was open |
| ItemList.Digits | utils/storage.ts:23 | the digits of a non-negative reading: non-empty, decimal, no leading zero |
| ItemList.DigitsInjective | utils/storage.ts:23 | two non-negative readings have the same digits exactly when they are equal |
| ItemList.Numeral | utils/storage.ts:23 | the id: non-empty, starting with a minus sign exactly when the reading is negative, and decimal digits everywhere else |
| ItemList.NumeralInjective | utils/storage.ts:23 | two clock readings, of either sign, give the same id exactly when they are equal |
| ItemList.SameIdFrontTakesToggleDeleteTakesBoth | utils/storage.ts:20-51 | with two items of the same id in front, a toggle flips only the first and a delete removes both |
| Frequency.FindByName | utils/storage.ts:67 | the result is the first position holding the exact name, or None when no entry has it |
| Frequency.Bumped | utils/storage.ts:67-72 | the index after `find` and `count++` or `push`; no ensures of its own, specified by BumpedSpec, BumpedTotals and BumpedUnique |
| Frequency.BumpedSpec | utils/storage.ts:67-72 | a known name has its first entry's count raised by one with its category kept; an unknown name is appended with count 1; names, categories and other counts stay as they were |
| Frequency.BumpedTotals | utils/storage.ts:67-72 | one addition raises the total count of that name by one and of every other name by zero |
| Frequency.BumpedUnique | utils/storage.ts:67-72 | bumping keeps names unique |
| Frequency.Insert | utils/storage.ts:57 | one step of the stable sort; its length grows by one, and InsertPermutes, InsertSorted and InsertWithCount state the rest |
| Frequency.InsertPermutes | utils/storage.ts:57 | inserting adds exactly the inserted entry to the multiset of entries |
| Frequency.InsertSorted | utils/storage.ts:57 | inserting into a sorted sequence keeps it sorted |
| Frequency.InsertWithCount | utils/storage.ts:57 | inserting appends the entry to the end of the entries of its count, and changes no other count's entries |
| Frequency.SortByCount | utils/storage.ts:57 | `sort((a, b) => b.count - a.count)`; its length is kept, and SortByCountSpec states that it is sorted, a permutation and stable |
| Frequency.SortByCountSorted | utils/storage.ts:57 | the sorted index has non-increasing counts |
| Frequency.SortByCountPermutes | utils/storage.ts:57 | the sorted index is a permutation of the stored one |
| Frequency.SortByCountStable | utils/storage.ts:57 | entries with equal counts keep their stored order |
| Frequency.SortByCountSpec | utils/storage.ts:57 | the sort by count is sorted, a permutation and stable |
| Frequency.ShiftIn | utils/storage.ts:57 | one insertion step moves the entry left past the smaller counts before it and shifts those right by one |
| Frequency.SortInPlace | utils/storage.ts:57 | the in-place sort leaves the array holding the stable sort of its old contents |
| Frequency.TopFrequent | utils/storage.ts:57 | the read returns min(10, number of stored entries) entries |
| Frequency.TopFrequentSpec | utils/storage.ts:57 | at most 10 entries, sorted by count, a sub-multiset of the stored ones, and all of them when at most 10 are stored |
| Frequency.TopFrequentDominates | utils/storage.ts:57 | no stored entry left out of a read counts more than an entry returned |
| Frequency.TopFrequentStable | utils/storage.ts:57 | among equal counts, the entries returned are the first ones in stored order |
| Types.LabelInjective | types/index.ts:1 | the three category labels are distinct |
| Storage.KeysDistinct | utils/storage.ts:4-5 | the list and the index are stored under different keys |
| Storage.Contents | utils/storage.ts:10 | the list a read yields (`json ? JSON.parse(json) : []`, also at line 56): the stored entries, or the empty list; no ensures of its own, used in the ensures of AddItem, ToggleItem, DeleteItem and GetFrequentItems |
| Storage.Recorded | utils/storage.ts:63-77 | the index after `updateFrequentItem`; no ensures of its own, specified by RecordedSpec |
| Storage.RecordedSpec | utils/storage.ts:63-77 | an unreadable index is left as it is; a readable or missing one becomes readable, gains exactly one addition of the name and keeps names unique |
| Storage.ItemStore.constructor | utils/storage.ts:4-5 | a store holding the given contents under the two keys |
| Storage.ItemStore.GetItems | utils/storage.ts:7-14 | the stored list when it decodes, and the empty list when the key is missing, empty or unreadable |
| Storage.ItemStore.SaveItems | utils/storage.ts:16-18 | the list key afterwards holds exactly the saved list; the index is untouched |
| Storage.ItemStore.AddItem | utils/storage.ts:20-33 | the new item is open, has no completion time and carries the given name, category and creation time, and the numeral of `idTime` as its id; the list becomes the new item followed by the old list; the index records one addition of the name; well-formedness is kept |
| Storage.ItemStore.ToggleItem | utils/storage.ts:35-44 | the stored and returned list is the toggled old list, also when no item has the id; the index is untouched; well-formedness is kept |
| Storage.ItemStore.DeleteItem | utils/storage.ts:46-51 | the stored and returned list is the old list without the id; the index is untouched |
| Storage.ItemStore.GetFrequentItems | utils/storage.ts:53-61 | the first ten of the stable sort by count of the stored index (empty when missing or unreadable); nothing is written |
| Storage.ItemStore.UpdateFrequentItem | utils/storage.ts:63-77 | the index becomes the bumped index unless it is unreadable, in which case it is left alone; the list is untouched |
| StorageExamples.AddToEmpty | __tests__/storage.test.ts:71-82 | an addition to an empty store lists one open item with the given name and category and a non-empty id |
| StorageExamples.NewestFirst | __tests__/storage.test.ts:84-93 | the most recent addition is listed first |
| StorageExamples.AddTwiceCountsTwo | __tests__/storage.test.ts:95-104 | adding 牛乳 twice reads back as one entry with count 2 |
| StorageExamples.ToggleBackAndForth | __tests__/storage.test.ts:108-119 | a toggle completes the item with a time stamp; a second toggle reopens it without one |
| StorageExamples.ToggleUnknownId | __tests__/storage.test.ts:121-126 | toggling an unknown id keeps the one open item |
| StorageExamples.DeleteOne | __tests__/storage.test.ts:130-145 | deleting the first item's id keeps only the second item |
| StorageExamples.DeleteUnknownId | __tests__/storage.test.ts:147-151 | deleting an unknown id keeps the item |
| StorageExamples.SameMillisecondDeleteRemovesBoth | utils/storage.ts:20-51 | two additions with the same clock reading share an id, so one delete empties the list |
| StorageExamples.MostFrequentFirst | __tests__/storage.test.ts:160-174 | three 牛乳 and one 卵 read back as 牛乳 with count 3, then 卵 with count 1 |
| StorageExamples.CorruptItemsReadEmpty | __tests__/storage.test.ts:63-67 | an unreadable list reads as empty, and the next addition replaces it |
| StorageExamples.CorruptIndexReadsEmpty | __tests__/storage.test.ts:187-191 | an unreadable index reads as empty and stays so after an addition, while the item is still listed |
| StorageExamples.SaveThenGet | __tests__/storage.test.ts:51-61 | what is saved is read back unchanged |

## Left out

- JSON text. The text format, `JSON.parse` and `JSON.stringify` are not modelled. A key's content is its decoded outcome: Missing (absent or empty text), Corrupt (unparseable) or Valid (a list of records).
- Non-list JSON. Text that parses but is not a list of records, such as `null`, is not represented. In the source, `getItems` would return it as is and later calls would throw.
- Lost `undefined` fields. Serialisation drops a `completedAt` that is `undefined`, and read-back items then lack the field. The model writes None for such an item.
- Failing storage calls. A rejected read is handled by the source's catch like unreadable content. Rejected writes are not modelled, and every write succeeds.
- Concurrency. The calls are asynchronous, and interleaved read-modify-write cycles can lose updates. Each operation is modelled as one atomic step.
- Clock. `Date.now()` is a parameter. The two readings in `addItem` are separate arguments.
- Classifier.ToLower: lowers only ASCII A-Z and leaves every other character unchanged. `toLowerCase` also lowers other scripts, but no keyword contains a letter with case, so this does not change which keyword a name contains.
- Text encoding. Strings are sequences of Unicode scalar values. JavaScript uses UTF-16 code units, which differs only for characters outside the Basic Multilingual Plane. No keyword contains such a character.
- Numbers. Counts and clock readings are unbounded integers, not IEEE doubles. The comparator `b.count - a.count` is modelled as a comparison of counts.
- ClassifierExamples: does not derive the test expectations for トイレットペーパー, マスク and プレゼント. Each of these names contains a character that begins some food keyword (ト, レ, マ), so the first-character argument the other examples use does not apply. The general lemmas `Classifier.ClassifyDaily` and `Classifier.ClassifyOther` still state what decides them.
- Storage.ItemStore.UpdateFrequentItem: `updateFrequentItem` is private in the source, but here it is an ordinary method of the class.
- UI. Rendering, gestures, theming and the whitespace trim in the input box are not modelled.
