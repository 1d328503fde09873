/**
 * The two lookup tables of the page: section icons and section titles. Both
 * are plain JavaScript object literals indexed by the lower-cased group name.
 */
module Tables {
  import opened Text

  /**
   * Property names that every object literal inherits from Object.prototype
   * (ECMAScript 2024, section 20.1.3, and the `__proto__` accessor and legacy
   * accessor methods of Annex B.2.2).
   */
  const ObjectPrototypeNames: set<string> := {
    "constructor", "hasOwnProperty", "isPrototypeOf", "propertyIsEnumerable",
    "toLocaleString", "toString", "valueOf", "__proto__",
    "__defineGetter__", "__defineSetter__", "__lookupGetter__", "__lookupSetter__"}

  /** What reading `table[key]` on an object literal yields. */
  datatype Property = Own(value: string) | Inherited(name: string) | Undefined

  function Lookup(table: map<string, string>, key: string): Property {
    if key in table then Own(table[key])
    else if key in ObjectPrototypeNames then Inherited(key)
    else Undefined
  }

  /** Every inherited member is a function or an object, and so truthy. */
  predicate Truthy(p: Property) {
    match p
    case Own(v) => v != ""
    case Inherited(_) => true
    case Undefined => false
  }

  /** A value the page shows: a string, or an inherited member of Object.prototype. */
  datatype Shown = Text(s: string) | Member(name: string)

  const IconDir: string := "/images/model-icons/"

  /** DEFAULT_ICON */
  const DefaultIcon: string := IconDir + "hf.png"

  const Icons: map<string, string> := map[
    "claude" := IconDir + "anthropic.webp",
    "gpt" := IconDir + "openai.svg",
    "gpt-oss" := IconDir + "openai.svg",
    "llama" := IconDir + "meta.png",
    "qwen" := IconDir + "qwen.png",
    "gemma" := IconDir + "google.png",
    "mistral" := IconDir + "mistralai.png",
    "deepseek" := IconDir + "deepseek.png",
    "phi" := IconDir + "microsoft.png",
    "nova" := IconDir + "nova.png",
    "ibm" := IconDir + "ibm.png",
    "nvidia" := IconDir + "nvidia.svg",
    "glm" := IconDir + "z_ai.svg"]

  /** A non-empty file name under the icon directory. */
  predicate IsIconPath(path: string) {
    |IconDir| < |path| && path[..|IconDir|] == IconDir
  }

  /**
   * `getGroupIcon` as written: `icons[group.toLowerCase()] || DEFAULT_ICON`.
   * A lower-cased name that Object.prototype defines ("constructor",
   * "__proto__") is not an own key yet reads as a truthy inherited member,
   * which is returned in place of an icon path.
   */
  function GroupIconAsWritten(group: string): (r: Shown)
    ensures r.Member? <==> ToLower(group) in ObjectPrototypeNames
    ensures r.Member? ==> r.name == ToLower(group)
    ensures r.Text? ==> r.s == GroupIcon(group)
  {
    var p := Lookup(Icons, ToLower(group));
    if !Truthy(p) then Text(DefaultIcon)
    else match p
      case Own(v) => Text(v)
      case Inherited(n) => Member(n)
  }

  lemma GroupIconAsWrittenReturnsConstructor()
    ensures GroupIconAsWritten("Constructor") == Member("constructor")
  {
    assert ToLower("Constructor") == "constructor";
  }

  /**
   * `getGroupIcon` as intended: the table's own entry for the lower-cased
   * name, else the default icon. The result is always an icon file path.
   */
  function GroupIcon(group: string): (path: string)
    ensures IsIconPath(path)
    ensures ToLower(group) in Icons ==> path == Icons[ToLower(group)]
    ensures ToLower(group) !in Icons ==> path == DefaultIcon
  {
    var key := ToLower(group);
    if key in Icons then Icons[key] else DefaultIcon
  }

  /** The icon depends on the group name only up to ASCII case. */
  lemma GroupIconCaseInsensitive(group: string)
    ensures GroupIcon(group) == GroupIcon(ToLower(group))
  {
    ToLowerIdempotent(group);
  }

  /** Outside the inherited names the code as written agrees with the intended lookup. */
  lemma GroupIconAsWrittenAgrees(group: string)
    requires ToLower(group) !in ObjectPrototypeNames
    ensures GroupIconAsWritten(group) == Text(GroupIcon(group))
  {
  }

  const SpecialCases: map<string, string> := map[
    "gpt" := "GPT",
    "gpt-oss" := "GPT-OSS",
    "ibm" := "IBM",
    "nvidia" := "NVIDIA",
    "glm" := "GLM",
    "smollm2" := "SmolLM2"]

  /** `group.charAt(0).toUpperCase() + group.slice(1)` */
  function UpperFirst(group: string): (r: string)
    ensures |r| == |group|
    ensures |group| > 0 ==> r[0] == UpperChar(group[0]) && r[1..] == group[1..]
  {
    if group == [] then [] else [UpperChar(group[0])] + group[1..]
  }

  /**
   * `capitalizeGroup` as written. As with the icons, "constructor" and
   * "__proto__" (in any case) read as truthy inherited members, which are
   * returned instead of a title.
   */
  function CapitalizeGroupAsWritten(group: string): (r: Shown)
    ensures r.Member? <==> ToLower(group) in ObjectPrototypeNames
    ensures r.Member? ==> r.name == ToLower(group)
    ensures r.Text? ==> r.s == CapitalizeGroup(group)
  {
    var p := Lookup(SpecialCases, ToLower(group));
    if !Truthy(p) then Text(UpperFirst(group))
    else match p
      case Own(v) => Text(v)
      case Inherited(n) => Member(n)
  }

  /**
   * The group "__PROTO__" gets its own bucket (only the lower-cased name is
   * inherited), but its lower-cased key reads Object.prototype.
   */
  lemma CapitalizeGroupAsWrittenReturnsProto()
    ensures CapitalizeGroupAsWritten("__PROTO__") == Member("__proto__")
  {
    assert ToLower("__PROTO__") == "__proto__";
  }

  /**
   * `capitalizeGroup` as intended: the acronym table's entry for the
   * lower-cased name, else the name with its first character upper-cased.
   */
  function CapitalizeGroup(group: string): (title: string)
    ensures ToLower(group) in SpecialCases ==> title == SpecialCases[ToLower(group)]
    ensures ToLower(group) !in SpecialCases ==>
      |title| == |group| && (|group| > 0 ==> title[0] == UpperChar(group[0]) && title[1..] == group[1..])
  {
    var key := ToLower(group);
    if key in SpecialCases then SpecialCases[key] else UpperFirst(group)
  }

  lemma CapitalizeGroupAsWrittenAgrees(group: string)
    requires ToLower(group) !in ObjectPrototypeNames
    ensures CapitalizeGroupAsWritten(group) == Text(CapitalizeGroup(group))
  {
  }

  /** Every acronym in the table lower-cases back to its own key. */
  lemma SpecialCasesLowerToKey(key: string)
    requires key in SpecialCases
    ensures ToLower(SpecialCases[key]) == key
  {
  }

  /** A title differs from its group name in letter case only. */
  lemma CapitalizeGroupChangesCaseOnly(group: string)
    ensures ToLower(CapitalizeGroup(group)) == ToLower(group)
  {
    if ToLower(group) in SpecialCases {
      SpecialCasesLowerToKey(ToLower(group));
    } else if group != [] {
      LowerOfUpper(group[0]);
    }
  }

  /** Capitalising a title again leaves it unchanged. */
  lemma CapitalizeGroupIdempotent(group: string)
    ensures CapitalizeGroup(CapitalizeGroup(group)) == CapitalizeGroup(group)
  {
    var title := CapitalizeGroup(group);
    CapitalizeGroupChangesCaseOnly(group);
    if ToLower(group) !in SpecialCases && group != [] {
      assert UpperChar(UpperChar(group[0])) == UpperChar(group[0]);
      assert title == [title[0]] + title[1..];
    }
  }

  lemma CapitalizeGroupExamples()
    ensures CapitalizeGroup("gpt") == "GPT"
    ensures CapitalizeGroup("Nvidia") == "NVIDIA"
    ensures CapitalizeGroup("mistral") == "Mistral"
    ensures CapitalizeGroup("") == ""
  {
    assert ToLower("gpt") == "gpt";
    assert ToLower("Nvidia") == "nvidia";
    assert ToLower("mistral") == "mistral";
  }
}
