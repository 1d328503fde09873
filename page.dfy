/**
 * The generated page as structured parts rather than MDX text: a document of
 * two tabs, each a list of group sections, each a grid of model cards.
 */
module Page {
  import opened Wrappers
  import opened Text
  import opened Sorting
  import opened Catalog
  import opened Format
  import opened Tables
  import opened Grouping

  /** The capability badges a card may carry. */
  datatype Badge = FineTunable | Json | Tools

  /** One `<Card>`: title, token/parameter summary line, price table and badges. */
  datatype Card = Card(
    title: string,
    tokens: TokensText,
    params: Option<ParamsText>,
    inputPrice: PriceText,
    outputPrice: PriceText,
    badges: seq<Badge>)

  /**
   * A group header (title, icon, model count) and its card grid; `group` is
   * the raw group name the section was generated for.
   */
  datatype Section = Section(group: string, title: string, icon: string, count: nat, cards: seq<Card>)

  /** A `<Tab>`: the model count in its title and its sections. */
  datatype Tab = Tab(count: nat, sections: seq<Section>)

  /** The page: the fine-tunable tab, then the tab of all models. */
  datatype Document = Document(fineTunable: Tab, all: Tab)

  /** The flag that switches a badge on. */
  predicate Enabled(m: Model, b: Badge) {
    match b
    case FineTunable => m.finetuning
    case Json => m.supportsJsonOutput
    case Tools => m.supportsFunctionCalling
  }

  /** The position of a badge in the fixed order Fine-tunable, JSON, Tools. */
  function Rank(b: Badge): nat {
    match b
    case FineTunable => 0
    case Json => 1
    case Tools => 2
  }

  /** The card `generateModelCard` renders for `m`. */
  function CardOf(m: Model): Card {
    Card(
      Title(m),
      FormatTokens(m.maxCompletionTokens),
      FormatParameters(m.parameterCount),
      FormatPrice(m.inputPricePer1MTokens),
      FormatPrice(m.outputPricePer1MTokens),
      (if m.finetuning then [FineTunable] else [])
        + (if m.supportsJsonOutput then [Json] else [])
        + (if m.supportsFunctionCalling then [Tools] else []))
  }

  /** `generateModelCard`: collects the badges by pushing one per set flag. */
  method GenerateModelCard(m: Model) returns (card: Card)
    ensures card == CardOf(m)
  {
    var name := Title(m);
    var params := FormatParameters(m.parameterCount);
    var badges: seq<Badge> := [];
    if m.finetuning {
      badges := badges + [FineTunable];
    }
    if m.supportsJsonOutput {
      badges := badges + [Json];
    }
    if m.supportsFunctionCalling {
      badges := badges + [Tools];
    }
    card := Card(name, FormatTokens(m.maxCompletionTokens), params,
      FormatPrice(m.inputPricePer1MTokens), FormatPrice(m.outputPricePer1MTokens), badges);
  }

  /**
   * A card carries exactly the badges whose flag is set, in the fixed order;
   * its title is the alias unless that is missing or empty, then the id; the
   * parameter suffix is shown exactly when the parameter count is present.
   */
  lemma CardContents(m: Model)
    ensures forall b :: b in CardOf(m).badges <==> Enabled(m, b)
    ensures forall i, j :: 0 <= i < j < |CardOf(m).badges| ==> Rank(CardOf(m).badges[i]) < Rank(CardOf(m).badges[j])
    ensures CardOf(m).title == if m.alias.Some? && m.alias.value != "" then m.alias.value else m.id
    ensures CardOf(m).params.Some? <==> m.parameterCount.Some?
  {
  }

  /** The two badge properties above leave exactly one possible badge list. */
  lemma BadgesDetermined(m: Model, badges: seq<Badge>)
    requires forall b :: b in badges <==> Enabled(m, b)
    requires forall i, j :: 0 <= i < j < |badges| ==> Rank(badges[i]) < Rank(badges[j])
    ensures badges == CardOf(m).badges
  {
    var expected := CardOf(m).badges;
    CardContents(m);
    RankedDetermined(badges, expected);
  }

  /** Two strictly ranked badge lists with the same members are equal. */
  lemma {:induction false} RankedDetermined(a: seq<Badge>, b: seq<Badge>)
    requires forall x :: x in a <==> x in b
    requires forall i, j :: 0 <= i < j < |a| ==> Rank(a[i]) < Rank(a[j])
    requires forall i, j :: 0 <= i < j < |b| ==> Rank(b[i]) < Rank(b[j])
    ensures a == b
    decreases |a|
  {
    assert a != [] ==> a[0] in b;
    assert b != [] ==> b[0] in a;
    if a != [] && b != [] {
      var k :| 0 <= k < |b| && b[k] == a[0];
      var l :| 0 <= l < |a| && a[l] == b[0];
      assert Rank(b[0]) <= Rank(b[k]) && Rank(a[0]) <= Rank(a[l]);
      assert a[0] == b[0];
      assert forall i :: 1 <= i < |a| ==> a[i] != a[0];
      assert forall i :: 1 <= i < |b| ==> b[i] != b[0];
      forall x ensures x in a[1..] <==> x in b[1..] {
        assert x in a[1..] <==> x in a && x != a[0];
        assert x in b[1..] <==> x in b && x != b[0];
      }
      RankedDetermined(a[1..], b[1..]);
      assert a == [a[0]] + a[1..] && b == [b[0]] + b[1..];
    }
  }

  /** The cards of a bucket, in bucket order. */
  function CardsOf(models: seq<Model>): (cards: seq<Card>)
    ensures |cards| == |models|
    ensures forall i :: 0 <= i < |models| ==> cards[i] == CardOf(models[i])
  {
    seq(|models|, i requires 0 <= i < |models| => CardOf(models[i]))
  }

  /** The section `generateGroupSection` renders for a group and its bucket. */
  function SectionOf(group: string, models: seq<Model>): Section {
    Section(group, CapitalizeGroup(group), GroupIcon(group), |models|, CardsOf(models))
  }

  /** `generateGroupSection`: the header, then one card appended per model. */
  method GenerateGroupSection(group: string, models: seq<Model>) returns (section: Section)
    ensures section == SectionOf(group, models)
  {
    var title := CapitalizeGroup(group);
    var icon := GroupIcon(group);
    var modelCount := |models|;
    var cards: seq<Card> := [];
    for i := 0 to |models|
      invariant |cards| == i
      invariant forall n :: 0 <= n < i ==> cards[n] == CardOf(models[n])
    {
      var card := GenerateModelCard(models[i]);
      cards := cards + [card];
    }
    section := Section(group, title, icon, modelCount, cards);
  }

  /** The sections for the listed groups, in that order. */
  function SectionsOf(names: seq<string>, grouped: Grouped): (sections: seq<Section>)
    requires forall k :: k in names ==> k in grouped.buckets
    ensures |sections| == |names|
    ensures forall i :: 0 <= i < |names| ==> sections[i] == SectionOf(names[i], grouped.buckets[names[i]])
  {
    if names == [] then []
    else SectionsOf(names[..|names| - 1], grouped) + [SectionOf(names[|names| - 1], grouped.buckets[names[|names| - 1]])]
  }

  /** One tab: the models grouped, the groups sorted, one section per group. */
  function TabOf(models: seq<Model>, cmp: Collator): Tab {
    var grouped := GroupingOf(models, cmp);
    var names := GetSortedGroups(grouped, cmp);
    Tab(|models|, SectionsOf(names, grouped))
  }

  /** `models.filter(m => m.finetuning)` */
  function FineTunableModels(models: seq<Model>): (r: seq<Model>)
    ensures |r| <= |models|
    ensures forall m :: m in r ==> m in models && m.finetuning
  {
    if models == [] then []
    else
      var last := models[|models| - 1];
      FineTunableModels(models[..|models| - 1]) + if last.finetuning then [last] else []
  }

  /** The filter keeps every fine-tunable model, as often as it occurs, and nothing else. */
  lemma {:induction false} FineTunableModelsSpec(models: seq<Model>)
    ensures forall m ::
      multiset(FineTunableModels(models))[m] == (if m.finetuning then multiset(models)[m] else 0)
  {
    if models != [] {
      var front := models[..|models| - 1];
      assert models == front + [models[|models| - 1]];
      FineTunableModelsSpec(front);
    }
  }

  /** The page `generateMdx` renders. */
  function DocumentOf(models: seq<Model>, cmp: Collator): Document {
    Document(TabOf(FineTunableModels(models), cmp), TabOf(models, cmp))
  }

  /**
   * The loop `generateMdx` runs once per tab: one section per group, in the
   * order of `names`, appended to the tab.
   */
  method GenerateSections(names: seq<string>, grouped: Grouped) returns (sections: seq<Section>)
    requires forall k :: k in names ==> k in grouped.buckets
    ensures sections == SectionsOf(names, grouped)
  {
    sections := [];
    for i := 0 to |names|
      invariant sections == SectionsOf(names[..i], grouped)
    {
      var group := names[i];
      var section := GenerateGroupSection(group, grouped.buckets[group]);
      assert names[..i + 1][..i] == names[..i];
      sections := sections + [section];
    }
    assert names[..|names|] == names;
  }

  /**
   * `generateMdx`: filter the fine-tunable models, group and sort both lists,
   * then emit the sections of the fine-tunable tab and those of the tab of
   * all models.
   */
  method GenerateMdx(models: seq<Model>, cmp: Collator) returns (doc: Document)
    ensures doc == DocumentOf(models, cmp)
  {
    var finetunableModels := FineTunableModels(models);
    var allModels := models;

    var finetunableGrouped := GroupModels(finetunableModels, cmp);
    var allGrouped := GroupModels(allModels, cmp);

    var finetunableSortedGroups := GetSortedGroups(finetunableGrouped, cmp);
    var allSortedGroups := GetSortedGroups(allGrouped, cmp);

    var finetunableSections := GenerateSections(finetunableSortedGroups, finetunableGrouped);
    var allSections := GenerateSections(allSortedGroups, allGrouped);

    doc := Document(Tab(|finetunableModels|, finetunableSections), Tab(|allModels|, allSections));
  }

  // ----- properties of the page -----

  /** The sum of the header counts of `sections`. */
  function SumCounts(sections: seq<Section>): nat {
    if sections == [] then 0
    else SumCounts(sections[..|sections| - 1]) + sections[|sections| - 1].count
  }

  lemma {:induction false} SectionCountsAddUp(names: seq<string>, models: seq<Model>, cmp: Collator)
    requires forall k :: k in names ==> k in GroupingOf(models, cmp).buckets
    ensures SumCounts(SectionsOf(names, GroupingOf(models, cmp))) == MemberTotal(names, models)
  {
    var g := GroupingOf(models, cmp);
    if names != [] {
      var front := names[..|names| - 1];
      var sections := SectionsOf(names, g);
      SectionCountsAddUp(front, models, cmp);
      assert sections[..|sections| - 1] == SectionsOf(front, g);
    }
  }

  /**
   * A tab has one section per group in `getSortedGroups` order; each header
   * counts its bucket's models, no header counts zero, and the header
   * counts add up to the tab's count, which is the number of models given.
   */
  lemma TabCounts(models: seq<Model>, cmp: Collator)
    ensures var t := TabOf(models, cmp);
      var g := GroupingOf(models, cmp);
      var names := GetSortedGroups(g, cmp);
      && t.count == |models|
      && |t.sections| == |names|
      && (forall i :: 0 <= i < |names| ==>
            && t.sections[i].group == names[i]
            && t.sections[i].title == CapitalizeGroup(names[i])
            && t.sections[i].count == |t.sections[i].cards| == |g.buckets[names[i]]| > 0)
      && SumCounts(t.sections) == t.count
  {
    var g := GroupingOf(models, cmp);
    var names := GetSortedGroups(g, cmp);
    GroupingBucketsNonEmpty(models, cmp);
    GroupingSizesSum(models, cmp);
    SectionCountsAddUp(names, models, cmp);
  }

  /** A model found in a bucket of the grouping is one of the grouped models. */
  lemma BucketModelIsInput(models: seq<Model>, cmp: Collator, group: string, m: Model)
    requires group in GroupingOf(models, cmp).buckets
    requires m in GroupingOf(models, cmp).buckets[group]
    ensures m in models
  {
    SortByMembers(Members(models, group), SortKey, cmp);
    MembersSpec(models, group);
    assert m in multiset(Members(models, group));
  }

  /** Every model in a bucket of the fine-tunable grouping is fine-tunable. */
  lemma FineTunableBucketModel(models: seq<Model>, cmp: Collator, group: string, m: Model)
    requires group in GroupingOf(FineTunableModels(models), cmp).buckets
    requires m in GroupingOf(FineTunableModels(models), cmp).buckets[group]
    ensures m.finetuning
  {
    var ft := FineTunableModels(models);
    BucketModelIsInput(ft, cmp, group, m);
    FineTunableModelsSpec(models);
    assert multiset(ft)[m] > 0;
  }

  /** Every card in the fine-tunable tab carries the Fine-tunable badge. */
  lemma FineTunableTabCardsBadged(models: seq<Model>, cmp: Collator)
    ensures var t := DocumentOf(models, cmp).fineTunable;
      forall i, j :: 0 <= i < |t.sections| && 0 <= j < |t.sections[i].cards| ==>
        FineTunable in t.sections[i].cards[j].badges
  {
    var ft := FineTunableModels(models);
    var g := GroupingOf(ft, cmp);
    var names := GetSortedGroups(g, cmp);
    var sections := SectionsOf(names, g);
    assert DocumentOf(models, cmp).fineTunable.sections == sections;
    forall i, j | 0 <= i < |sections| && 0 <= j < |sections[i].cards|
      ensures FineTunable in sections[i].cards[j].badges
    {
      var bucket := g.buckets[names[i]];
      assert sections[i] == SectionOf(names[i], bucket);
      FineTunableBucketModel(models, cmp, names[i], bucket[j]);
      assert sections[i].cards[j] == CardOf(bucket[j]);
    }
  }

  /**
   * The fine-tunable tab counts the fine-tunable models, its header counts
   * add up to that number, and every card in it carries the Fine-tunable badge.
   */
  lemma FineTunableTab(models: seq<Model>, cmp: Collator)
    ensures var t := DocumentOf(models, cmp).fineTunable;
      && t.count == |FineTunableModels(models)|
      && SumCounts(t.sections) == t.count
      && (forall i, j :: 0 <= i < |t.sections| && 0 <= j < |t.sections[i].cards| ==>
            FineTunable in t.sections[i].cards[j].badges)
  {
    TabCounts(FineTunableModels(models), cmp);
    FineTunableTabCardsBadged(models, cmp);
  }

  /** Some section of `t` holds the card `c`. */
  predicate Shows(t: Tab, c: Card) {
    exists i, j :: 0 <= i < |t.sections| && 0 <= j < |t.sections[i].cards| && t.sections[i].cards[j] == c
  }

  /** A model in the bucket of a listed group has its card in that group's section. */
  lemma SectionsShowBucketModel(names: seq<string>, grouped: Grouped, i: int, m: Model)
    requires forall k :: k in names ==> k in grouped.buckets
    requires 0 <= i < |names| && m in grouped.buckets[names[i]]
    ensures var sections := SectionsOf(names, grouped);
      exists j :: 0 <= j < |sections[i].cards| && sections[i].cards[j] == CardOf(m)
  {
    var bucket := grouped.buckets[names[i]];
    var j :| 0 <= j < |bucket| && bucket[j] == m;
    assert SectionsOf(names, grouped)[i].cards[j] == CardOf(m);
  }

  /** A model given to a tab has its card in the section of its group. */
  lemma TabShowsModel(models: seq<Model>, cmp: Collator, m: Model)
    requires m in models
    ensures Shows(TabOf(models, cmp), CardOf(m))
  {
    var g := GroupingOf(models, cmp);
    var names := GetSortedGroups(g, cmp);
    ModelInOwnBucket(models, cmp, m);
    var i :| 0 <= i < |names| && names[i] == EffectiveGroup(m);
    GroupingKeys(models, cmp);
    SectionsShowBucketModel(names, g, i, m);
    assert TabOf(models, cmp).sections == SectionsOf(names, g);
  }

  /** A card of a tab is the card of one of the models given to the tab. */
  lemma TabCardIsModelCard(models: seq<Model>, cmp: Collator, i: int, j: int)
    requires 0 <= i < |TabOf(models, cmp).sections|
    requires 0 <= j < |TabOf(models, cmp).sections[i].cards|
    ensures exists m :: m in models && TabOf(models, cmp).sections[i].cards[j] == CardOf(m)
  {
    var g := GroupingOf(models, cmp);
    var names := GetSortedGroups(g, cmp);
    var bucket := g.buckets[names[i]];
    BucketModelIsInput(models, cmp, names[i], bucket[j]);
    assert TabOf(models, cmp).sections[i].cards[j] == CardOf(bucket[j]);
  }

  /** `c` is the card of one of `models`. */
  ghost predicate CardOfOneOf(models: seq<Model>, c: Card) {
    exists m :: m in models && c == CardOf(m)
  }

  /** `c` is the card of one of the fine-tunable models among `models`. */
  ghost predicate CardOfFineTunableOneOf(models: seq<Model>, c: Card) {
    exists m :: m in models && m.finetuning && c == CardOf(m)
  }

  /** A tab shows the card of every model given to it, and no other card. */
  lemma TabCards(models: seq<Model>, cmp: Collator)
    ensures forall m :: m in models ==> Shows(TabOf(models, cmp), CardOf(m))
    ensures var t := TabOf(models, cmp);
      forall i, j :: 0 <= i < |t.sections| && 0 <= j < |t.sections[i].cards| ==>
        CardOfOneOf(models, t.sections[i].cards[j])
  {
    forall m | m in models ensures Shows(TabOf(models, cmp), CardOf(m)) {
      TabShowsModel(models, cmp, m);
    }
    var t := TabOf(models, cmp);
    forall i, j | 0 <= i < |t.sections| && 0 <= j < |t.sections[i].cards|
      ensures CardOfOneOf(models, t.sections[i].cards[j])
    {
      TabCardIsModelCard(models, cmp, i, j);
    }
  }

  /** The tab of all models shows the card of every model given, and no other card. */
  lemma AllModelsTabCards(models: seq<Model>, cmp: Collator)
    ensures var t := DocumentOf(models, cmp).all;
      && (forall m :: m in models ==> Shows(t, CardOf(m)))
      && (forall i, j :: 0 <= i < |t.sections| && 0 <= j < |t.sections[i].cards| ==>
            CardOfOneOf(models, t.sections[i].cards[j]))
  {
    TabCards(models, cmp);
  }

  /** The fine-tunable models are exactly the models given that are fine-tunable. */
  lemma InFineTunableModels(models: seq<Model>, m: Model)
    ensures m in FineTunableModels(models) <==> m in models && m.finetuning
  {
    FineTunableModelsSpec(models);
    assert m in FineTunableModels(models) <==> multiset(FineTunableModels(models))[m] > 0;
    assert m in models <==> multiset(models)[m] > 0;
  }

  /** The fine-tunable tab shows the card of every fine-tunable model given. */
  lemma FineTunableTabShowsEach(models: seq<Model>, cmp: Collator)
    ensures var t := DocumentOf(models, cmp).fineTunable;
      forall m :: m in models && m.finetuning ==> Shows(t, CardOf(m))
  {
    var ft := FineTunableModels(models);
    var t := TabOf(ft, cmp);
    assert DocumentOf(models, cmp).fineTunable == t;
    TabCards(ft, cmp);
    forall m | m in models && m.finetuning ensures Shows(t, CardOf(m)) {
      InFineTunableModels(models, m);
    }
  }

  /** Every card of the fine-tunable tab is the card of a fine-tunable model given. */
  lemma FineTunableTabShowsOnly(models: seq<Model>, cmp: Collator)
    ensures var t := DocumentOf(models, cmp).fineTunable;
      forall i, j :: 0 <= i < |t.sections| && 0 <= j < |t.sections[i].cards| ==>
        CardOfFineTunableOneOf(models, t.sections[i].cards[j])
  {
    var ft := FineTunableModels(models);
    var t := TabOf(ft, cmp);
    assert DocumentOf(models, cmp).fineTunable == t;
    TabCards(ft, cmp);
    forall i, j | 0 <= i < |t.sections| && 0 <= j < |t.sections[i].cards|
      ensures CardOfFineTunableOneOf(models, t.sections[i].cards[j])
    {
      assert CardOfOneOf(ft, t.sections[i].cards[j]);
      var m :| m in ft && t.sections[i].cards[j] == CardOf(m);
      InFineTunableModels(models, m);
    }
  }

  /** The tab of all models counts every model, and its header counts add up to that. */
  lemma AllModelsTab(models: seq<Model>, cmp: Collator)
    ensures var t := DocumentOf(models, cmp).all;
      t.count == |models| && SumCounts(t.sections) == |models|
  {
    TabCounts(models, cmp);
  }
}
