/** One entry of the public model catalogue and the defaults the generator applies to it. */
module Catalog {
  import opened Wrappers

  /**
   * A catalogue record as the API returns it. Optional JSON fields are
   * `Option`s (missing, `null` and `undefined` all read as `None`); numbers
   * are reals except the token limit, which the API gives as an integer.
   */
  datatype Model = Model(
    id: string,
    alias: Option<string>,
    group: Option<string>,
    parameterCount: Option<real>,
    maxCompletionTokens: Option<int>,
    inputPricePer1MTokens: Option<real>,
    outputPricePer1MTokens: Option<real>,
    finetuning: bool,
    supportsJsonOutput: bool,
    supportsFunctionCalling: bool)

  const DefaultGroup: string := "other"

  /** `model.group || 'other'`: a missing or empty group name falls back to "other". */
  function EffectiveGroup(m: Model): (g: string)
    ensures g != ""
    ensures m.group.Some? && m.group.value != "" ==> g == m.group.value
    ensures m.group.None? || m.group.value == "" ==> g == DefaultGroup
  {
    match m.group
    case Some(g) => if g != "" then g else DefaultGroup
    case None => DefaultGroup
  }

  /** `model.alias || ''`: the key a bucket is sorted by. */
  function SortKey(m: Model): (k: string)
    ensures m.alias.Some? ==> k == m.alias.value
    ensures m.alias.None? ==> k == ""
  {
    match m.alias
    case Some(a) => a
    case None => ""
  }

  /** `model.alias || model.id`: the card title. */
  function Title(m: Model): (t: string)
    ensures m.alias.Some? && m.alias.value != "" ==> t == m.alias.value
    ensures m.alias.None? || m.alias.value == "" ==> t == m.id
  {
    match m.alias
    case Some(a) => if a != "" then a else m.id
    case None => m.id
  }

  /**
   * A model without an alias is titled by its id but sorted as the empty
   * string, not by that id.
   */
  lemma AliaslessSortsAsEmpty(m: Model)
    requires m.alias.None? || m.alias.value == ""
    ensures SortKey(m) == "" && Title(m) == m.id
  {
  }
}
