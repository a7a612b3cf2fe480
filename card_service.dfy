/** The backend card service: the required-field check of a card and the second prompt
    generator, which writes the ASCII layout row by row, appends the structured data record
    serialised by `json.dumps` and closes with a fixed style guide. The serialiser is a
    parameter. */
module CardService {
  import opened Wrappers
  import opened Text
  import opened Card

  // ---------------------------------------------------------------------------
  // Validation

  /** The fields `validate_card_data` requires, in the order it checks them. */
  datatype RequiredField = CardNameField | TypeField | AttributeField | RarityField

  /** The position of a field in the checking order. */
  function Rank(f: RequiredField): nat {
    match f
    case CardNameField => 0
    case TypeField => 1
    case AttributeField => 2
    case RarityField => 3
  }

  function FieldValue(c: CardFields, f: RequiredField): Option<string> {
    match f
    case CardNameField => c.cardName
    case TypeField => c.cardType
    case AttributeField => c.attribute
    case RarityField => c.rarity
  }

  /** The error message reported for a missing required field. */
  function MissingMessage(f: RequiredField): string {
    match f
    case CardNameField => "카드명은 필수 입력 항목입니다."
    case TypeField => "타입은 필수 입력 항목입니다."
    case AttributeField => "속성은 필수 입력 항목입니다."
    case RarityField => "등급은 필수 입력 항목입니다."
  }

  /** Absent or made only of the characters `strip()` removes. */
  predicate Blank(v: Option<string>) {
    v.None? || forall i :: 0 <= i < |v.value| ==> IsPySpace(v.value[i])
  }

  /** `v and v.strip()` is truthy exactly when `v` is not blank. */
  lemma PyPresentIffNotBlank(v: Option<string>)
    ensures PyPresent(v) <==> !Blank(v)
  {
    if v.Some? {
      TrimBlank(v.value, IsPySpace);
    }
  }

  /** The field is provided: it is not blank, so `not x or not x.strip()` is false. */
  predicate Provided(c: CardFields, f: RequiredField) {
    !Blank(FieldValue(c, f))
  }

  /** A field is provided exactly when `not x or not x.strip()` is false for its value. */
  lemma ProvidedIffStripped(c: CardFields, f: RequiredField)
    ensures Provided(c, f) <==> FieldValue(c, f).Some? && PyStrip(FieldValue(c, f).value) != ""
  {
    PyPresentIffNotBlank(FieldValue(c, f));
  }

  /** `f` is missing and every field checked before it is provided. */
  predicate FirstMissing(c: CardFields, f: RequiredField) {
    !Provided(c, f) && forall g :: Rank(g) < Rank(f) ==> Provided(c, g)
  }

  /** At most one field is the first missing one. */
  lemma FirstMissingUnique(c: CardFields, f: RequiredField, g: RequiredField)
    requires FirstMissing(c, f) && FirstMissing(c, g)
    ensures f == g
  {
    assert !(Rank(f) < Rank(g)) && !(Rank(g) < Rank(f));
  }

  /** The chain of checks of `validate_card_data`: the first required field, in checking
      order, that is absent or whitespace only. */
  function CheckRequired(c: CardFields): (r: Option<RequiredField>)
    ensures r.None? <==> forall f :: Provided(c, f)
    ensures r.Some? ==> FirstMissing(c, r.value)
  {
    if !Provided(c, CardNameField) then Some(CardNameField)
    else if !Provided(c, TypeField) then Some(TypeField)
    else if !Provided(c, AttributeField) then Some(AttributeField)
    else if !Provided(c, RarityField) then Some(RarityField)
    else None
  }

  /** `validate_card_data`: valid, with an empty message, exactly when every required field
      is provided; otherwise the message of the first field, in checking order, that is not. */
  function ValidateCardData(c: CardFields): (r: (bool, string))
    ensures r.0 <==> forall f :: Provided(c, f)
    ensures r.0 ==> r.1 == ""
    ensures forall f :: FirstMissing(c, f) ==> r == (false, MissingMessage(f))
  {
    match CheckRequired(c)
    case None => (true, "")
    case Some(missing) =>
      assert forall f :: FirstMissing(c, f) ==> f == missing by {
        forall f | FirstMissing(c, f) ensures f == missing {
          FirstMissingUnique(c, f, missing);
        }
      }
      (false, MissingMessage(missing))
  }

  /** No two required fields share a message; the messages differ in their first character. */
  lemma MessagesDistinct(f: RequiredField, g: RequiredField)
    ensures MissingMessage(f) == MissingMessage(g) ==> f == g
  {
    if MissingMessage(f) == MissingMessage(g) {
      assert MissingMessage(f)[0] == MissingMessage(g)[0];
    }
  }

  /** The message of a failed validation names the field that is missing, and every field
      checked before it is provided. */
  lemma MessageIdentifiesField(c: CardFields, f: RequiredField)
    requires ValidateCardData(c) == (false, MissingMessage(f))
    ensures FirstMissing(c, f)
  {
    var m := if !Provided(c, CardNameField) then CardNameField
             else if !Provided(c, TypeField) then TypeField
             else if !Provided(c, AttributeField) then AttributeField
             else RarityField;
    assert FirstMissing(c, m);
    MessagesDistinct(m, f);
  }

  // ---------------------------------------------------------------------------
  // The fixed rows of the layout

  const Title := "트레이딩 카드 게임 스타일의 카드 일러스트를 생성하세요.\n\n"
  const LayoutHeading := "=== 카드 레이아웃 (시각적 구조) ===\n\n"
  const OuterTop := "┌─────────────────────────────────────────┐\n"
  const BackgroundLabel := "│  [배경 이미지 - Layer 2 (전체 영역)]     │\n"
  const InnerTop := "│  ┌─────────────────────────────────┐   │\n"
  const InnerTopBlank := "│  │                                 │   │\n"
  /** The horizontal rule inside the inner box. */
  const Rule := "│  │  ─────────────────────────────  │\n"
  /** The empty inner row of the box. */
  const BlankRow := "│  │                                 │\n"
  const CharacterLabel := "│  │    [메인 캐릭터 이미지 - Layer 1]  │\n"
  const InnerBottom := "│  └─────────────────────────────────┘   │\n"
  const OuterBottom := "└─────────────────────────────────────────┘\n"
  const OverlayNote := "(모든 텍스트는 투명 배경 오버레이로 배경 위에 표시)\n\n"
  const DataHeading := "=== 카드 데이터 (구조화된 정보) ===\n\n"
  const DataEnd := "\n\n"

  const StyleHeading := "=== 스타일 가이드 ===\n"
  const Style1 := "- 트레이딩 카드 게임 스타일 (포켓몬카드, 원피스카드 등 참고)\n"
  const Style2 := "- 모든 텍스트는 투명도가 높은 배경 위에 오버레이로 표시\n"
  const Style3 := "- 배경 이미지가 카드 전체를 덮고, 그 위에 캐릭터와 텍스트가 배치됨\n"
  const Style4 := "- 상세하고 전문적인 일러스트 품질\n"
  const Style5 := "- 카드 비율: 5:7 (세로형, 400x560px 기준)\n"
  /** The style guide the prompt ends with. */
  const StyleGuide := StyleHeading + Style1 + Style2 + Style3 + Style4 + Style5

  // The pieces of the rows that carry values.
  const HeaderOpen := "│  │  \U{2B55}"
  const HeaderClose := "\U{2B55} │\n"
  const Gap := "  "
  const Skill1Head := "│  │  [스킬 1] "
  const Skill2Head := "│  │  [스킬 2] "
  const DescHead := "│  │  • "
  const RowHead := "│  │  "
  const RowEnd := "│\n"
  const FlavorHead := "│  │  \""
  const FlavorEnd := "\"│\n"
  const AttackMark := "\U{2694}\U{FE0F} "
  const HealthMark := "  \U{2764}\U{FE0F} "

  // ---------------------------------------------------------------------------
  // Labels and fixed-width segments

  /** `s[:n] if len(s) > n else s`: the first `n` characters, with no ellipsis. */
  function Cut(s: string, n: nat): (r: string)
    ensures |r| == if |s| <= n then |s| else n
    ensures r == s[..|r|]
  {
    if |s| > n then s[..n] else s
  }

  /** The skill-name segment: the first 12 characters of the name, padded to 20. */
  function NameSegment(name: string): (r: string)
    ensures |r| == 20
    ensures |name| <= 12 ==> r[..|name|] == name
    ensures |name| > 12 ==> r[..12] == name[..12]
    ensures forall i :: |Cut(name, 12)| <= i < 20 ==> r[i] == ' '
  {
    PadEnd(Cut(name, 12), 20)
  }

  /** The skill-description segment: the first 30 characters of the description, padded to 30. */
  function DescSegment(desc: string): (r: string)
    ensures |r| == 30
    ensures r[..|Cut(desc, 30)|] == Cut(desc, 30)
    ensures forall i :: |Cut(desc, 30)| <= i < 30 ==> r[i] == ' '
  {
    PadEnd(Cut(desc, 30), 30)
  }

  /** The flavor segment: the first 35 characters of the flavor text, padded to 35. */
  function FlavorSegment(flavor: string): (r: string)
    ensures |r| == 35
    ensures r[..|Cut(flavor, 35)|] == Cut(flavor, 35)
    ensures forall i :: |Cut(flavor, 35)| <= i < 35 ==> r[i] == ' '
  {
    PadEnd(Cut(flavor, 35), 35)
  }

  /** The labels of the header, the stats and the meta line; each field falls back to its
      placeholder only when it is absent or empty (`x if x else placeholder`). */
  datatype Labels = Labels(
    typeStr: string,
    rarityStr: string,
    cardNameStr: string,
    attributeStr: string,
    attackStr: string,
    healthStr: string,
    seriesStr: string)

  function LabelsOf(c: CardFields): Labels {
    Labels(
      OrElse(c.cardType, "[타입]"),
      OrElse(c.rarity, "[등급]"),
      OrElse(c.cardName, "카드명"),
      OrElse(c.attribute, "[속성]"),
      OrElse(c.attack, "0"),
      OrElse(c.health, "0"),
      OrElse(c.series, "[시리즈]"))
  }

  /** The fallbacks test for emptiness, not blankness: a present, non-empty value is kept
      even when it is whitespace only. */
  lemma LabelFallbacks(c: CardFields)
    ensures var d := LabelsOf(c);
      && d.typeStr == (if c.cardType.None? || c.cardType.value == [] then "[타입]" else c.cardType.value)
      && d.rarityStr == (if c.rarity.None? || c.rarity.value == [] then "[등급]" else c.rarity.value)
      && d.cardNameStr == (if c.cardName.None? || c.cardName.value == [] then "카드명" else c.cardName.value)
      && d.attributeStr == (if c.attribute.None? || c.attribute.value == [] then "[속성]" else c.attribute.value)
      && d.attackStr == (if c.attack.None? || c.attack.value == [] then "0" else c.attack.value)
      && d.healthStr == (if c.health.None? || c.health.value == [] then "0" else c.health.value)
      && d.seriesStr == (if c.series.None? || c.series.value == [] then "[시리즈]" else c.series.value)
  {
  }

  // ---------------------------------------------------------------------------
  // The layout

  /** The header row: type, rarity, name and attribute between two circles. */
  function HeaderRow(d: Labels): string {
    HeaderOpen + d.typeStr + Gap + d.rarityStr + Gap + d.cardNameStr + Gap + d.attributeStr + HeaderClose
  }

  /** A skill's name row. */
  function NameRow(head: string, name: string): string {
    head + NameSegment(name) + RowEnd
  }

  /** A skill's description row; an absent or empty description leaves it blank. */
  function DescRow(desc: Option<string>): string {
    DescHead + DescSegment(OrElse(desc, "")) + RowEnd
  }

  /** The rows of one skill: its name row, its description row and a blank row. */
  function SkillRows(head: string, name: string, desc: Option<string>): string {
    NameRow(head, name) + DescRow(desc) + BlankRow
  }

  /** The rows of the skills whose names are not blank, skill 1 first; nothing otherwise. */
  function SkillsRows(c: CardFields): string {
    (if !Blank(c.skill1Name) then SkillRows(Skill1Head, c.skill1Name.value, c.skill1Description) else "")
    + (if !Blank(c.skill2Name) then SkillRows(Skill2Head, c.skill2Name.value, c.skill2Description) else "")
  }

  /** The quoted flavor row. */
  function FlavorRow(flavor: string): string {
    FlavorHead + FlavorSegment(flavor) + FlavorEnd
  }

  /** The flavor row and a blank row for a non-blank flavor text; nothing otherwise. */
  function FlavorRows(c: CardFields): string {
    if !Blank(c.flavorText) then FlavorRow(c.flavorText.value) + BlankRow else ""
  }

  /** The stats text before padding. */
  function StatsText(d: Labels): string {
    AttackMark + d.attackStr + HealthMark + d.healthStr
  }

  function StatsRow(d: Labels): string {
    RowHead + PadEnd(StatsText(d), 35) + RowEnd
  }

  /** The meta row carries only the series. */
  function MetaRow(d: Labels): string {
    RowHead + PadEnd(d.seriesStr, 35) + RowEnd
  }

  /** The layout down to the rule above the skills: the frame, the header row and the
      character label. */
  function LayoutTop(d: Labels): string {
    Title + LayoutHeading + OuterTop + BackgroundLabel + InnerTop + InnerTopBlank
    + HeaderRow(d) + Rule + BlankRow
    + CharacterLabel + BlankRow + Rule
  }

  /** The visual part of the prompt, from the title to the overlay note. */
  function Layout(c: CardFields): string {
    var d := LabelsOf(c);
    LayoutTop(d) + SkillsRows(c) + Rule + FlavorRows(c)
    + StatsRow(d) + BlankRow + MetaRow(d) + InnerBottom + OuterBottom + OverlayNote
  }

  /** The skill rows appear exactly for the skills whose names are not blank in Python's
      sense, in order; with no skill there are none (unlike the frontend, no blank row takes
      their place). */
  lemma SkillsRowsCases(c: CardFields)
    ensures Blank(c.skill1Name) && Blank(c.skill2Name) ==> SkillsRows(c) == ""
    ensures !Blank(c.skill1Name) ==>
      StartsWith(SkillsRows(c), SkillRows(Skill1Head, c.skill1Name.value, c.skill1Description))
    ensures !Blank(c.skill2Name) ==>
      var tail := SkillRows(Skill2Head, c.skill2Name.value, c.skill2Description);
      |tail| <= |SkillsRows(c)| && SkillsRows(c)[|SkillsRows(c)| - |tail|..] == tail
    ensures |SkillsRows(c)| == (if !Blank(c.skill1Name) then 114 else 0) + (if !Blank(c.skill2Name) then 114 else 0)
  {
    if !Blank(c.skill1Name) {
      var first := SkillRows(Skill1Head, c.skill1Name.value, c.skill1Description);
      assert SkillsRows(c)[..|first|] == first;
    }
  }

  /** The flavor row appears only for a non-blank flavor text and is 35 wide between its quotes. */
  lemma FlavorRowsCases(c: CardFields)
    ensures Blank(c.flavorText) ==> FlavorRows(c) == ""
    ensures !Blank(c.flavorText) ==>
      var seg := FlavorSegment(c.flavorText.value);
      && FlavorRows(c)[|FlavorHead|..|FlavorHead| + 35] == seg
      && |FlavorRows(c)| == |FlavorHead| + 35 + |FlavorEnd| + |BlankRow|
  {
    if !Blank(c.flavorText) {
      var seg := FlavorSegment(c.flavorText.value);
      assert FlavorRows(c) == FlavorHead + seg + (FlavorEnd + BlankRow) by {
        AppendAssoc(FlavorHead + seg, FlavorEnd, BlankRow);
      }
    }
  }

  // ---------------------------------------------------------------------------
  // The structured data record

  /** `card_data_dict`: like the frontend record, but the meta part holds only the series. */
  datatype ServiceCardData = ServiceCardData(
    layer2: Layer,
    layer1: Layer,
    header: Header,
    skills: seq<Skill>,
    stats: Stats,
    description: Option<string>,
    series: string)

  /** The skills appended to the record, skill 1 first. */
  function DataSkills(c: CardFields): seq<Skill> {
    (if !Blank(c.skill1Name) then [Skill(c.skill1Name.value, OrElse(c.skill1Description, ""))] else [])
    + (if !Blank(c.skill2Name) then [Skill(c.skill2Name.value, OrElse(c.skill2Description, ""))] else [])
  }

  function CardDataOf(c: CardFields): ServiceCardData {
    var d := LabelsOf(c);
    ServiceCardData(
      BackgroundLayer(OrElse(c.backgroundImageRef, NoReference)),
      CharacterLayer(OrElse(c.characterImageRef, NoReference)),
      Header(d.typeStr, d.rarityStr, d.cardNameStr, d.attributeStr),
      DataSkills(c),
      Stats(d.attackStr, d.healthStr),
      if Truthy(c.flavorText) then c.flavorText else None,
      d.seriesStr)
  }

  /** The record uses the labels of the layout, including the '0' stats fallback; its
      references fall back to "없음"; its description is absent exactly when the flavor text
      is falsy; its skills are the skills that get rows, in the same order, with the untruncated
      names and descriptions. */
  lemma CardDataMatchesLayout(c: CardFields)
    ensures var data := CardDataOf(c); var d := LabelsOf(c);
      && data.header == Header(d.typeStr, d.rarityStr, d.cardNameStr, d.attributeStr)
      && StatsRow(d) == RowHead + PadEnd(AttackMark + data.stats.attack + HealthMark + data.stats.health, 35) + RowEnd
      && MetaRow(d) == RowHead + PadEnd(data.series, 35) + RowEnd
      && (!Truthy(c.attack) ==> data.stats.attack == "0")
      && (!Truthy(c.health) ==> data.stats.health == "0")
      && data.layer2.reference == (if Truthy(c.backgroundImageRef) then c.backgroundImageRef.value else NoReference)
      && data.layer1.reference == (if Truthy(c.characterImageRef) then c.characterImageRef.value else NoReference)
      && (data.description.None? <==> !Truthy(c.flavorText))
      && (data.description.Some? ==> data.description == c.flavorText)
      && |data.skills| == (if !Blank(c.skill1Name) then 1 else 0) + (if !Blank(c.skill2Name) then 1 else 0)
      && (!Blank(c.skill1Name) ==> data.skills[0] == Skill(c.skill1Name.value, OrElse(c.skill1Description, "")))
      && (!Blank(c.skill2Name) ==> data.skills[|data.skills| - 1] == Skill(c.skill2Name.value, OrElse(c.skill2Description, "")))
  {
  }

  // ---------------------------------------------------------------------------
  // The prompt

  /** The prompt `generate_prompt` returns for the request fields and the serialiser. */
  function GeneratedPrompt(c: CardFields, dumps: ServiceCardData -> string): string {
    Layout(c) + DataHeading + dumps(CardDataOf(c)) + DataEnd
    + StyleHeading + Style1 + Style2 + Style3 + Style4 + Style5
  }

  /** Every prompt starts with the title and the layout heading. */
  lemma PromptStartsWithTitle(c: CardFields, dumps: ServiceCardData -> string)
    ensures StartsWith(GeneratedPrompt(c, dumps), Title + LayoutHeading)
  {
    var d := LabelsOf(c);
    var head := Title + LayoutHeading;
    assert StartsWith(head + OuterTop, head);
    PrefixExtends(head + OuterTop, head, BackgroundLabel, InnerTop, InnerTopBlank, HeaderRow(d),
                  Rule, BlankRow, CharacterLabel, BlankRow, Rule);
    PrefixExtends(LayoutTop(d), head, SkillsRows(c), Rule, FlavorRows(c), StatsRow(d), BlankRow,
                  MetaRow(d), InnerBottom, OuterBottom, OverlayNote);
    PrefixExtends(Layout(c), head, DataHeading, dumps(CardDataOf(c)), DataEnd, StyleHeading,
                  Style1, Style2, Style3, Style4, Style5);
  }

  /** Every prompt ends with the style guide and carries the serialised record right after
      the data heading, which follows the layout. */
  lemma PromptEndsWithStyleGuide(c: CardFields, dumps: ServiceCardData -> string)
    ensures EndsWith(GeneratedPrompt(c, dumps), StyleGuide)
    ensures OccursAt(GeneratedPrompt(c, dumps), dumps(CardDataOf(c)), |Layout(c) + DataHeading|)
  {
    PromptTail(Layout(c), dumps(CardDataOf(c)));
  }

  /** Where the record and the style guide sit in a prompt with layout `front`. */
  lemma PromptTail(front: string, json: string)
    ensures var p := front + DataHeading + json + DataEnd
                     + StyleHeading + Style1 + Style2 + Style3 + Style4 + Style5;
      EndsWith(p, StyleGuide) && OccursAt(p, json, |front + DataHeading|)
  {
    var head := front + DataHeading;
    GroupSuffix(head + json + DataEnd, StyleHeading, Style1, Style2, Style3, Style4, Style5);
    Pieces(head, json, DataEnd, StyleGuide);
  }

  /** Appending six pieces one after another appends their concatenation. */
  lemma GroupSuffix(x: string, y1: string, y2: string, y3: string, y4: string, y5: string, y6: string)
    ensures x + y1 + y2 + y3 + y4 + y5 + y6 == x + (y1 + y2 + y3 + y4 + y5 + y6)
  {
  }

  /** Where the pieces of `x + m + y + z` sit. */
  lemma Pieces(x: string, m: string, y: string, z: string)
    ensures OccursAt(x + m + y + z, m, |x|) && EndsWith(x + m + y + z, z)
  {
    var s := x + m + y + z;
    assert s == x + m + (y + z);
  }

  /** A prefix of `x` stays a prefix when nine more pieces are appended. */
  lemma PrefixExtends(x: string, a: string, y1: string, y2: string, y3: string, y4: string,
                      y5: string, y6: string, y7: string, y8: string, y9: string)
    requires StartsWith(x, a)
    ensures StartsWith(x + y1 + y2 + y3 + y4 + y5 + y6 + y7 + y8 + y9, a)
  {
    var z := x + y1 + y2 + y3 + y4 + y5 + y6 + y7 + y8 + y9;
    assert z == x + (y1 + y2 + y3 + y4 + y5 + y6 + y7 + y8 + y9);
    assert z[..|a|] == x[..|a|];
  }

  lemma AppendAssoc(a: string, b: string, c: string)
    ensures a + b + c == a + (b + c)
  {
  }

  lemma AppendAssoc3(p: string, a: string, b: string, c: string)
    ensures p + a + b + c == p + (a + b + c)
  {
  }

  /** `generate_prompt`: writes the layout, then builds the record, appending the skills to
      its list, then appends the serialised record and the style guide. */
  method GeneratePrompt(c: CardFields, dumps: ServiceCardData -> string) returns (prompt: string)
    ensures prompt == GeneratedPrompt(c, dumps)
  {
    var labels;
    prompt, labels := WriteLayout(c);
    prompt := prompt + DataHeading;
    var cardDataDict := BuildCardData(c, labels.typeStr, labels.rarityStr, labels.cardNameStr,
                                      labels.attributeStr, labels.attackStr, labels.healthStr,
                                      labels.seriesStr);
    prompt := prompt + dumps(cardDataDict);
    prompt := prompt + DataEnd;

    prompt := prompt + StyleHeading;
    prompt := prompt + Style1;
    prompt := prompt + Style2;
    prompt := prompt + Style3;
    prompt := prompt + Style4;
    prompt := prompt + Style5;
  }

  /** The layout part of `generate_prompt`: the rows appended one after another, with the
      labels computed on the way (returned for the record). */
  method WriteLayout(c: CardFields) returns (prompt: string, labels: Labels)
    ensures labels == LabelsOf(c)
    ensures prompt == Layout(c)
  {
    ghost var d := LabelsOf(c);
    var typeStr, rarityStr, cardNameStr, attributeStr;
    prompt, typeStr, rarityStr, cardNameStr, attributeStr := WriteLayoutTop(c);
    prompt := AppendSkillRows(prompt, c);
    prompt := prompt + Rule;
    prompt := AppendFlavorRows(prompt, c);
    assert prompt == LayoutTop(d) + SkillsRows(c) + Rule + FlavorRows(c);
    var attackStr, healthStr, seriesStr;
    prompt, attackStr, healthStr, seriesStr := WriteLayoutBottom(prompt, c);
    labels := Labels(typeStr, rarityStr, cardNameStr, attributeStr, attackStr, healthStr, seriesStr);
  }

  /** The bottom of the layout, appended to `front`: the stats row, the meta row and the
      closing frame. */
  method WriteLayoutBottom(front: string, c: CardFields)
    returns (prompt: string, attackStr: string, healthStr: string, seriesStr: string)
    ensures var d := LabelsOf(c);
      prompt == front + StatsRow(d) + BlankRow + MetaRow(d) + InnerBottom + OuterBottom + OverlayNote
    ensures attackStr == LabelsOf(c).attackStr && healthStr == LabelsOf(c).healthStr
    ensures seriesStr == LabelsOf(c).seriesStr
  {
    ghost var d := LabelsOf(c);
    prompt := front;
    attackStr := if Truthy(c.attack) then c.attack.value else "0";
    healthStr := if Truthy(c.health) then c.health.value else "0";
    var stats := AttackMark + attackStr + HealthMark + healthStr;
    assert stats == StatsText(d);
    prompt := prompt + (RowHead + PadEnd(stats, 35) + RowEnd);
    prompt := prompt + BlankRow;

    seriesStr := if Truthy(c.series) then c.series.value else "[시리즈]";
    var metaInfo := seriesStr;
    assert metaInfo == d.seriesStr;
    prompt := prompt + (RowHead + PadEnd(metaInfo, 35) + RowEnd);
    prompt := prompt + InnerBottom;
    prompt := prompt + OuterBottom;
    prompt := prompt + OverlayNote;
  }

  /** The top of the layout: the title, the frame, the header row and the character label. */
  method WriteLayoutTop(c: CardFields)
    returns (prompt: string, typeStr: string, rarityStr: string, cardNameStr: string, attributeStr: string)
    ensures prompt == LayoutTop(LabelsOf(c))
    ensures typeStr == LabelsOf(c).typeStr && rarityStr == LabelsOf(c).rarityStr
    ensures cardNameStr == LabelsOf(c).cardNameStr && attributeStr == LabelsOf(c).attributeStr
  {
    prompt := Title;
    prompt := prompt + LayoutHeading;
    prompt := prompt + OuterTop;
    prompt := prompt + BackgroundLabel;
    prompt := prompt + InnerTop;
    prompt := prompt + InnerTopBlank;

    typeStr := if Truthy(c.cardType) then c.cardType.value else "[타입]";
    rarityStr := if Truthy(c.rarity) then c.rarity.value else "[등급]";
    cardNameStr := if Truthy(c.cardName) then c.cardName.value else "카드명";
    attributeStr := if Truthy(c.attribute) then c.attribute.value else "[속성]";

    prompt := prompt + (HeaderOpen + typeStr + Gap + rarityStr + Gap + cardNameStr + Gap + attributeStr + HeaderClose);
    prompt := prompt + Rule;
    prompt := prompt + BlankRow;
    prompt := prompt + CharacterLabel;
    prompt := prompt + BlankRow;
    prompt := prompt + Rule;
    ghost var d := LabelsOf(c);
    assert typeStr == d.typeStr && rarityStr == d.rarityStr;
    assert cardNameStr == d.cardNameStr && attributeStr == d.attributeStr;
    assert prompt == LayoutTop(d);
  }

  /** The skill section of `generate_prompt`: the rows of each skill whose name is not
      blank, appended to the prompt so far. */
  method AppendSkillRows(before: string, c: CardFields) returns (prompt: string)
    ensures prompt == before + SkillsRows(c)
  {
    PyPresentIffNotBlank(c.skill1Name);
    PyPresentIffNotBlank(c.skill2Name);
    prompt := before;
    if PyPresent(c.skill1Name) {
      var skill1Name := Cut(c.skill1Name.value, 12);
      var skill1Desc := Cut(OrElse(c.skill1Description, ""), 30);
      var nameRow := Skill1Head + PadEnd(skill1Name, 20) + RowEnd;
      var descRow := DescHead + PadEnd(skill1Desc, 30) + RowEnd;
      prompt := prompt + nameRow;
      prompt := prompt + descRow;
      prompt := prompt + BlankRow;
      AppendAssoc3(before, nameRow, descRow, BlankRow);
    }
    ghost var skill1Rows := if !Blank(c.skill1Name) then SkillRows(Skill1Head, c.skill1Name.value, c.skill1Description) else "";
    assert prompt == before + skill1Rows;
    ghost var afterSkill1 := prompt;
    if PyPresent(c.skill2Name) {
      var skill2Name := Cut(c.skill2Name.value, 12);
      var skill2Desc := Cut(OrElse(c.skill2Description, ""), 30);
      var nameRow := Skill2Head + PadEnd(skill2Name, 20) + RowEnd;
      var descRow := DescHead + PadEnd(skill2Desc, 30) + RowEnd;
      prompt := prompt + nameRow;
      prompt := prompt + descRow;
      prompt := prompt + BlankRow;
      AppendAssoc3(afterSkill1, nameRow, descRow, BlankRow);
    }
    ghost var skill2Rows := if !Blank(c.skill2Name) then SkillRows(Skill2Head, c.skill2Name.value, c.skill2Description) else "";
    assert prompt == afterSkill1 + skill2Rows;
    AppendAssoc(before, skill1Rows, skill2Rows);
    assert prompt == before + SkillsRows(c);
  }

  /** The flavor section of `generate_prompt`: the flavor row and a blank row, appended when
      the flavor text is not blank. */
  method AppendFlavorRows(before: string, c: CardFields) returns (prompt: string)
    ensures prompt == before + FlavorRows(c)
  {
    PyPresentIffNotBlank(c.flavorText);
    prompt := before;
    if PyPresent(c.flavorText) {
      var flavorText := Cut(c.flavorText.value, 35);
      var flavorRow := FlavorHead + PadEnd(flavorText, 35) + FlavorEnd;
      prompt := prompt + flavorRow;
      prompt := prompt + BlankRow;
      AppendAssoc(before, flavorRow, BlankRow);
    }
    assert prompt == before + FlavorRows(c);
  }

  /** The construction of `card_data_dict` from the labels computed before, followed by the
      appends of the skills. */
  method BuildCardData(c: CardFields, typeStr: string, rarityStr: string, cardNameStr: string,
                       attributeStr: string, attackStr: string, healthStr: string, seriesStr: string)
    returns (cardData: ServiceCardData)
    requires LabelsOf(c) == Labels(typeStr, rarityStr, cardNameStr, attributeStr,
                                   attackStr, healthStr, seriesStr)
    ensures cardData == CardDataOf(c)
  {
    PyPresentIffNotBlank(c.skill1Name);
    PyPresentIffNotBlank(c.skill2Name);
    cardData := ServiceCardData(
      BackgroundLayer(OrElse(c.backgroundImageRef, NoReference)),
      CharacterLayer(OrElse(c.characterImageRef, NoReference)),
      Header(typeStr, rarityStr, cardNameStr, attributeStr),
      [],
      Stats(attackStr, healthStr),
      if Truthy(c.flavorText) then c.flavorText else None,
      seriesStr);
    if PyPresent(c.skill1Name) {
      cardData := cardData.(skills := cardData.skills + [Skill(c.skill1Name.value, OrElse(c.skill1Description, ""))]);
    }
    ghost var firstSkills := cardData.skills;
    assert firstSkills == (if !Blank(c.skill1Name)
      then [Skill(c.skill1Name.value, OrElse(c.skill1Description, ""))] else []);
    if PyPresent(c.skill2Name) {
      cardData := cardData.(skills := cardData.skills + [Skill(c.skill2Name.value, OrElse(c.skill2Description, ""))]);
    }
    assert cardData.skills == firstSkills + (if !Blank(c.skill2Name)
      then [Skill(c.skill2Name.value, OrElse(c.skill2Description, ""))] else []);
    assert cardData.skills == DataSkills(c);
  }
}
