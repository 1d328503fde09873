# Model of the available-models page generator

`scripts/generate-models.mjs` fetches the public model catalogue and writes the
"Available Models" documentation page. This project models the pure part of
that pipeline in Dafny and proves its layout properties. The modelled part
takes the list of model records and decides what the page contains: the
fine-tunable tab and the all-models tab, the group sections in each, and the
cards in each section.

- `Catalog` (`catalog.dfy`): the catalogue record. It also holds the three
  defaults the script applies: `group || 'other'`, `alias || ''` as the sort
  key and `alias || id` as the title.
- `Format` (`format.dfy`): `formatPrice`, `formatTokens` and
  `formatParameters`. Each returns the branch chosen: placeholder, "Free",
  precision, or unit suffix. The digits `toFixed` prints stay abstract as
  `Fixed(value, digits)`.
- `Tables` (`tables.dfy`): `getGroupIcon` and `capitalizeGroup`. Both are
  lookups in object literals keyed by the lower-cased group name.
- `Text` (`text.dfy`): ASCII case mapping, which stands in for
  `toLowerCase`/`toUpperCase`. It also holds the collator type that stands in
  for `localeCompare`, and one concrete collator, case-sensitive code-point order.
- `Sorting` (`sorting.dfy`): `Array.prototype.sort` with a comparator,
  modelled as a stable insertion sort.
- `Grouping` (`grouping.dfy`): `groupModels` (a method with the script's two
  loops) and `getSortedGroups`. It also proves the partition properties of
  the grouping.
- `Page` (`page.dfy`): `generateModelCard`, `generateGroupSection` and
  `generateMdx`. These are methods that build structured parts (document, tab,
  section, card), each proved equal to a specification function. The page
  lemmas are stated about those functions.

The collator is a parameter `cmp: (string, string) -> int` that plays the
role of `a.localeCompare(b)`, whose ordering (locale collation) is not
modelled. Lemmas that need an ordering require the collator to be a total
preorder. `Text.CodePointIsTotalPreorder` shows that case-sensitive code-point
order is one; it serves as a witness that the requirement can be met, not as
what `localeCompare` computes (that puts "a" before "B", code-point order
does not).

A bucket is sorted by `alias || ''` (generate-models.mjs:111), not by the
title `alias || id`. So models without an alias sort as the empty string,
not by their id, and in code-point order they come first
(`Grouping.AliaslessModelsLeadEachBucket`).

`formatTokens` prints "1000K" for every count from 999500 to 999999, because
`Math.round(999.5)` is 1000 (`Format.ThousandsReachOneThousand`).

## Model

| member | source | states |
|---|---|---|
| `Catalog.EffectiveGroup` | scripts/generate-models.mjs:102 | the group is never empty: a present non-empty group name is kept, a missing or empty one becomes "other" |
| `Catalog.SortKey` | scripts/generate-models.mjs:111 | the sort key is the alias when one is present (even empty), else the empty string |
| `Catalog.Title` | scripts/generate-models.mjs:69 | the title is the alias when present and non-empty, else the id |
| `Catalog.AliaslessSortsAsEmpty` | scripts/generate-models.mjs:69-111 | a model without an alias is titled by its id but sorted as "", not by its id |
| `Format.FormatPrice` | scripts/generate-models.mjs:19-25 | "-" exactly when the price is missing, "Free" exactly for 0, otherwise the price itself: with 4 decimals exactly when below 0.01, with 2 exactly when at least 0.1, else with 3 |
| `Format.PriceKeepsTwoSignificantDigits` | scripts/generate-models.mjs:22-24 | for every price of at least 0.001 the chosen precision shows at least two significant digits (price × 10^digits ≥ 10) |
| `Format.PricePrecisionMonotone` | scripts/generate-models.mjs:22-24 | a cheaper positive price never gets fewer decimals than a dearer one |
| `Format.PriceExamples` | scripts/generate-models.mjs:19-25 | 0 → Free, missing → "-", 0.005 → 4 decimals, 0.05 → 3 decimals, 1.5 → 2 decimals |
| `Format.RoundHalfUp` | scripts/generate-models.mjs:32 | `Math.round`: the result n satisfies n − ½ ≤ x < n + ½ |
| `Format.FormatTokens` | scripts/generate-models.mjs:27-35 | "-" iff missing; the M branch (one decimal of millions) iff ≥ 1000000; the K branch iff in [1000, 1000000); otherwise the integer itself, below 1000 |
| `Format.ThousandsRoundHalfUp` | scripts/generate-models.mjs:31-32 | for 1000 ≤ t < 1000000 the K value is exactly (t + 500) / 1000 and lies in [1, 1000] |
| `Format.ThousandsReachOneThousand` | scripts/generate-models.mjs:29-32 | every count in [999500, 999999] renders as 1000K rather than in millions |
| `Format.TokensExamples` | scripts/generate-models.mjs:27-35 | 1500000 → 1.5M, 2500 → 3K, 500 → 500, missing → "-" |
| `Format.FormatParameters` | scripts/generate-models.mjs:37-43 | no output iff the count is missing; the M suffix with count × 1000 at 0 decimals iff below 1, else the count with the B suffix |
| `Format.SubBillionShownInMillions` | scripts/generate-models.mjs:39-41 | a count in [0, 1) takes the millions branch, and the value passed to `toFixed(0)` is below 1000 |
| `Format.SubBillionCanPrintOneThousand` | scripts/generate-models.mjs:39-41 | counts from 0.9995 up to 1 round to 1000 at 0 decimals, so they print as 1000M rather than in billions |
| `Format.ParametersExamples` | scripts/generate-models.mjs:37-43 | 0.7 → 700M, 7 → 7B, missing → no output |
| `Text.ToLower` | scripts/generate-models.mjs:65 | lower-casing keeps the length and maps each character on its own |
| `Text.ToLowerIdempotent` | scripts/generate-models.mjs:65 | lower-casing twice is lower-casing once |
| `Text.LowerOfUpper` | scripts/generate-models.mjs:136 | upper-casing a character does not change its lower-case form |
| `Text.CodePointCompare` | scripts/generate-models.mjs:118 | the code-point collator returns −1, 0 or 1, and 0 exactly for equal strings |
| `Text.CodePointTotal` | scripts/generate-models.mjs:118 | code-point order relates any two strings one way or the other |
| `Text.CodePointTransitive` | scripts/generate-models.mjs:118 | code-point order is transitive |
| `Text.CodePointIsTotalPreorder` | scripts/generate-models.mjs:111-118 | code-point order is a collator the sorting lemmas accept |
| `Text.EmptyIsLeastInCodePointOrder` | scripts/generate-models.mjs:111 | "" sorts before every string, and only "" sorts before "" |
| `Sorting.Insert` | scripts/generate-models.mjs:111 | inserting adds exactly the one element |
| `Sorting.SortBy` | scripts/generate-models.mjs:111 | the sorted copy is a permutation of the input (same multiset) |
| `Sorting.InsertSorted` | scripts/generate-models.mjs:111 | for a total-preorder collator, inserting into a sorted list keeps it sorted |
| `Sorting.SortBySorted` | scripts/generate-models.mjs:111 | for a total-preorder collator, the result is in non-descending key order |
| `Sorting.SortByMembers` | scripts/generate-models.mjs:111 | sorting neither adds nor drops an element |
| `Tables.GroupIcon` | scripts/generate-models.mjs:45-66 | the icon is always a non-empty file path under /images/model-icons/: the table's entry for the lower-cased name, else the default icon |
| `Tables.GroupIconCaseInsensitive` | scripts/generate-models.mjs:65 | getGroupIcon(g) == getGroupIcon(lower(g)) |
| `Tables.GroupIconAsWritten` | scripts/generate-models.mjs:65 | as written: an inherited Object.prototype member (named by the lower-cased group) exactly when the lower-cased group is one of Object.prototype's names, otherwise the intended icon path |
| `Tables.GroupIconAsWrittenReturnsConstructor` | scripts/generate-models.mjs:65 | as written, the group "Constructor" yields the inherited `constructor` member, not an icon path |
| `Tables.GroupIconAsWrittenAgrees` | scripts/generate-models.mjs:49-66 | for names that Object.prototype does not define, the code as written returns the intended icon |
| `Tables.UpperFirst` | scripts/generate-models.mjs:136 | same length, first character upper-cased, rest unchanged |
| `Tables.CapitalizeGroup` | scripts/generate-models.mjs:121-137 | the acronym table's entry when the lower-cased name is a key; otherwise the name with only its first character upper-cased, same length, "" to "" |
| `Tables.CapitalizeGroupAsWritten` | scripts/generate-models.mjs:132-136 | as written: an inherited Object.prototype member exactly when the lower-cased group is one of Object.prototype's names, otherwise the intended title |
| `Tables.CapitalizeGroupAsWrittenReturnsProto` | scripts/generate-models.mjs:132-133 | as written, the group "__PROTO__" (which groupModels accepts) yields the inherited Object.prototype, not a title |
| `Tables.CapitalizeGroupAsWrittenAgrees` | scripts/generate-models.mjs:121-137 | for names that Object.prototype does not define, the code as written returns the intended title |
| `Tables.SpecialCasesLowerToKey` | scripts/generate-models.mjs:123-130 | every acronym lower-cases back to its own key |
| `Tables.CapitalizeGroupChangesCaseOnly` | scripts/generate-models.mjs:121-137 | a title differs from its group name only in letter case |
| `Tables.CapitalizeGroupIdempotent` | scripts/generate-models.mjs:121-137 | capitalising a title again leaves it unchanged |
| `Tables.CapitalizeGroupExamples` | scripts/generate-models.mjs:121-137 | gpt → GPT, Nvidia → NVIDIA, mistral → Mistral, "" → "" |
| `Grouping.GroupNamesDistinct` | scripts/generate-models.mjs:103-105 | a bucket key is created once at most |
| `Grouping.GroupNamesSpec` | scripts/generate-models.mjs:101-107 | the keys are exactly the effective groups of the input, each once |
| `Grouping.MembersOfUnnamedGroup` | scripts/generate-models.mjs:103-105 | a group with no key yet has no models yet |
| `Grouping.MembersSpec` | scripts/generate-models.mjs:101-107 | a bucket holds each model of its group as often as the input does, and nothing else |
| `Grouping.AppendModel` | scripts/generate-models.mjs:102-106 | one more model adds its group's key on first occurrence and goes to the end of that bucket only |
| `Grouping.FillBuckets` | scripts/generate-models.mjs:100-107 | the first loop yields the keys in first-occurrence order, each holding its group's models in input order |
| `Grouping.SortBuckets` | scripts/generate-models.mjs:110-112 | the second loop replaces every bucket by its sorted copy |
| `Grouping.GroupModels` | scripts/generate-models.mjs:99-115 | groupModels yields the grouping `GroupingOf`: the keys in first-occurrence order and each group's models sorted by `alias \|\| ''` |
| `Grouping.PushModelAsWritten` | scripts/generate-models.mjs:102-106 | as written, one push throws (`None`) exactly when the group has no bucket yet and is one of Object.prototype's names; otherwise it appends the model to its group's bucket, creating it if needed |
| `Grouping.PushModelAsWrittenThrowsOnToString` | scripts/generate-models.mjs:103-106 | as written, a model in group "toString" makes the loop throw, even on an empty grouping |
| `Grouping.PushModelAsWrittenAgrees` | scripts/generate-models.mjs:102-106 | for groups that Object.prototype does not name, the loop as written appends the model to its bucket, creating the bucket if needed |
| `Grouping.GetSortedGroups` | scripts/generate-models.mjs:117-119 | the sorted names are a permutation of the grouping's keys |
| `Grouping.GroupingKeys` | scripts/generate-models.mjs:99-107 | no key is repeated, and the key set is exactly the set of effective group names |
| `Grouping.GroupingIsPartition` | scripts/generate-models.mjs:99-107 | every model is in the bucket of its group and in no other, with its multiplicity |
| `Grouping.GroupingBucketsNonEmpty` | scripts/generate-models.mjs:103-106 | no bucket is empty |
| `Grouping.GroupingBucketsSorted` | scripts/generate-models.mjs:109-112 | each bucket is ordered by `alias \|\| ''` under the collator |
| `Grouping.AliaslessModelsLeadEachBucket` | scripts/generate-models.mjs:111 | in code-point order, models without an alias come before every aliased model of their bucket |
| `Grouping.MemberTotalOfNone` | scripts/generate-models.mjs:99-107 | no models give empty buckets |
| `Grouping.MemberTotalAppend` | scripts/generate-models.mjs:101-107 | one more model adds one to the total of the distinct groups that include its own |
| `Grouping.MemberTotalCoversAll` | scripts/generate-models.mjs:99-107 | distinct group names that cover every model have bucket sizes summing to the number of models |
| `Grouping.NoDuplicatesPermutation` | scripts/generate-models.mjs:118 | reordering a list without duplicates leaves none |
| `Grouping.NoDuplicatesMultiplicity` | scripts/generate-models.mjs:118 | an element of a list without duplicates occurs at most once |
| `Grouping.SortedGroupsSpec` | scripts/generate-models.mjs:117-119 | getSortedGroups lists each key of the grouping exactly once, in collator order |
| `Grouping.GroupingSizesSum` | scripts/generate-models.mjs:99-119 | bucket sizes sum to the number of models, in key order and in sorted order |
| `Page.GenerateModelCard` | scripts/generate-models.mjs:68-97 | generateModelCard builds the card `CardOf(m)` |
| `Page.CardContents` | scripts/generate-models.mjs:68-85 | a badge is present iff its flag is set, badges come in the order Fine-tunable, JSON, Tools, the title is `alias \|\| id`, and the parameter suffix is present iff the parameter count is |
| `Page.BadgesDetermined` | scripts/generate-models.mjs:73-82 | any badge list with those members in that order is the card's badge list |
| `Page.RankedDetermined` | scripts/generate-models.mjs:73-82 | two strictly ordered badge lists with the same members are equal |
| `Page.CardsOf` | scripts/generate-models.mjs:152-154 | one card per model, in bucket order |
| `Page.GenerateGroupSection` | scripts/generate-models.mjs:139-160 | generateGroupSection builds the section `SectionOf`: title, icon, the bucket's size as its count, and one card per model in order |
| `Page.SectionsOf` | scripts/generate-models.mjs:203-205 | one section per listed group, in the listed order |
| `Page.GenerateSections` | scripts/generate-models.mjs:203-218 | each tab's loop emits the sections `SectionsOf` for the sorted group names |
| `Page.FineTunableModelsSpec` | scripts/generate-models.mjs:164 | the filter keeps each fine-tunable model as often as it occurs, and nothing else |
| `Page.GenerateMdx` | scripts/generate-models.mjs:162-226 | generateMdx builds the document `DocumentOf`: the fine-tunable tab from the filtered list, the all-models tab from the whole list |
| `Page.SectionCountsAddUp` | scripts/generate-models.mjs:139-147 | the header counts of the sections add up to the sizes of their groups |
| `Page.TabCounts` | scripts/generate-models.mjs:139-147 | a tab has one section per group, in getSortedGroups order; each header counts its non-empty bucket and matches its cards; the counts sum to the tab count |
| `Page.BucketModelIsInput` | scripts/generate-models.mjs:164-169 | a model in a bucket was one of the grouped models |
| `Page.FineTunableBucketModel` | scripts/generate-models.mjs:164-168 | every model grouped for the fine-tunable tab is fine-tunable |
| `Page.FineTunableTabCardsBadged` | scripts/generate-models.mjs:164-205 | every card in the fine-tunable tab carries the Fine-tunable badge |
| `Page.FineTunableTab` | scripts/generate-models.mjs:196-205 | the fine-tunable tab's count is the number of fine-tunable models, and its header counts add up to it |
| `Grouping.ModelInOwnBucket` | scripts/generate-models.mjs:102-107 | every model lies in the bucket of its own group, and that group is a key |
| `Page.SectionsShowBucketModel` | scripts/generate-models.mjs:152-154 | a model in the bucket of a listed group has its card in that group's section |
| `Page.TabShowsModel` | scripts/generate-models.mjs:196-218 | every model given to a tab has its card in some section of the tab |
| `Page.TabCardIsModelCard` | scripts/generate-models.mjs:196-218 | every card of a tab is the card of a model given to the tab |
| `Page.TabCards` | scripts/generate-models.mjs:196-218 | a tab shows the card of every model given to it and no other card |
| `Page.AllModelsTabCards` | scripts/generate-models.mjs:209-218 | the all-models tab shows the card of every input model, and every card in it is an input model's card |
| `Page.FineTunableModels` | scripts/generate-models.mjs:164 | the filtered list is no longer than the input and holds only fine-tunable input models |
| `Page.InFineTunableModels` | scripts/generate-models.mjs:164 | a model survives the filter iff it is an input model and fine-tunable |
| `Page.FineTunableTabShowsEach` | scripts/generate-models.mjs:164-205 | the fine-tunable tab shows the card of every fine-tunable input model |
| `Page.FineTunableTabShowsOnly` | scripts/generate-models.mjs:164-205 | every card in the fine-tunable tab is the card of a fine-tunable input model |
| `Page.AllModelsTab` | scripts/generate-models.mjs:209-218 | the all-models tab's count is the number of models, and its header counts add up to it |

## Left out

- `fetchModels` (generate-models.mjs:11-17) is the network GET and JSON parsing. The model starts from the parsed list of records.
- `main` and the top-level catch (generate-models.mjs:228-250) write the file, log to the console and exit. This is I/O, so it is left out.
- The MDX text is not modelled: front matter, legend table, HTML class names, and the `title`/`alt` attribute markup. The page is modelled as structured parts that hold the values the template interpolates.
- The decimal digits that `Number.prototype.toFixed` and `toString` print are floating-point formatting. `Fixed(value, digits)` records the number passed to `toFixed` and the precision; rounding at that precision is modelled only where a lemma states it (`Format.SubBillionCanPrintOneThousand`). Numbers are reals, and the token limit is an integer.
- The locale rules of `localeCompare` are foreign library behaviour. They are a collator parameter. Sortedness is proved for any collator that is a total preorder.
- Unicode case mapping is modelled as ASCII case mapping. Characters whose case form has a different length are not modelled.
- `Object.keys` lists integer-like keys first, in numeric order. The model keeps every key in insertion order. This can only change the order of groups that the collator ranks equal.
- Sorting.SortBy: it proves permutation and sortedness. Stability (equal keys keep input order) is not proved. For a comparator that is not a total preorder, the engine's order is implementation-defined; the model fixes one order and proves no ordering for it.
- Record fields are typed: flags are booleans and `group`/`alias` are optional strings. Other truthy values (such as a numeric group) and NaN counts are not modelled.

## Findings

| source | as written | input that shows it | evidently intended | confidence | as-written member | corrected member |
|---|---|---|---|---|---|---|
| scripts/generate-models.mjs:65 | `icons[group.toLowerCase()] \|\| DEFAULT_ICON` also reads members the object literal inherits from Object.prototype | group "Constructor": returns the `Object` constructor function, not an icon path | the table's own entry, else the default icon | high; not executed | `Tables.GroupIconAsWritten`, `Tables.GroupIconAsWrittenReturnsConstructor` | `Tables.GroupIcon` (always an icon path, case-insensitive) |
| scripts/generate-models.mjs:132-133 | `specialCases[group.toLowerCase()]` is truthy for inherited members | group "__PROTO__": groupModels gives it a bucket, then capitalizeGroup returns Object.prototype as its title | the acronym table's own entry, else the first letter upper-cased | high; not executed | `Tables.CapitalizeGroupAsWritten`, `Tables.CapitalizeGroupAsWrittenReturnsProto` | `Tables.CapitalizeGroup` (changes case only, idempotent) |
| scripts/generate-models.mjs:103-106 | `!grouped[group]` is false for inherited members, so no bucket is created and `push` is called on a function | a model whose group is "toString": TypeError, so the whole run exits with status 1 | create the bucket for any group name not yet present | high; not executed | `Grouping.PushModelAsWritten`, `Grouping.PushModelAsWrittenThrowsOnToString` | `Grouping.GroupModels` (partition lemmas `Grouping.GroupingIsPartition`, `Grouping.GroupingSizesSum`) |
