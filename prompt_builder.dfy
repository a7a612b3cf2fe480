/** The frontend prompt builder: turns the optional card fields into display strings with
    placeholder fallbacks, lays them out as fixed-width rows of an ASCII box, assembles the
    structured card-data record and substitutes nine `{{token}}` strings into a prompt
    template. The template and the JSON serialiser are parameters. */
module PromptBuilder {
  import opened Wrappers
  import opened Text
  import opened Card

  // ---------------------------------------------------------------------------
  // Constants

  const TypePlaceholder := "[타입]"
  const RarityPlaceholder := "[등급]"
  const DefaultCardName := "카드명"
  const AttributePlaceholder := "[속성]"
  const DefaultStat := "0"
  const CardNumberPlaceholder := "[카드번호]"
  const SeriesPlaceholder := "[시리즈]"
  const Ellipsis := "..."

  /** The empty inner row of the box. */
  const BlankRow := "│  │                                 │\n"
  /** The start of the name row of skill 1 and of skill 2. */
  const Skill1Head := "│  │  [스킬 1] "
  const Skill2Head := "│  │  [스킬 2] "
  /** The start of a skill's description row. */
  const DescHead := "│  │  • "
  /** The end of a row that carries a value. */
  const RowEnd := "│\n"
  /** The start and the end of the flavor row. */
  const FlavorHead := "│  │  \""
  const FlavorEnd := "\"│\n"
  /** The crossed-swords and heart glyphs of the stats line (each glyph is followed by the
      emoji variation selector U+FE0F). */
  const AttackMark := "\U{2694}\U{FE0F} "
  const HealthMark := "  \U{2764}\U{FE0F} "

  const TypeToken := "{{type}}"
  const RarityToken := "{{rarity}}"
  const CardNameToken := "{{cardName}}"
  const AttributeToken := "{{attribute}}"
  const SkillsBlockToken := "{{skillsBlock}}"
  const FlavorBlockToken := "{{flavorBlock}}"
  const StatsLineToken := "{{statsLine}}"
  const MetaLineToken := "{{metaLine}}"
  const CardDataJsonToken := "{{cardDataJson}}"

  /** The nine tokens, in the order in which they are substituted. */
  const Tokens := [TypeToken, RarityToken, CardNameToken, AttributeToken, SkillsBlockToken,
                   FlavorBlockToken, StatsLineToken, MetaLineToken, CardDataJsonToken]

  // ---------------------------------------------------------------------------
  // Fixed-width text

  /** `truncate(value, max)`: a value that fits is kept; a longer one is cut to exactly `max`
      characters, the last three of which become "..." when `max` leaves room for them. */
  function Truncate(value: string, max: nat): (r: string)
    ensures |r| == if |value| <= max then |value| else max
    ensures |value| <= max ==> r == value
    ensures |value| > max && max <= 3 ==> r == value[..max]
    ensures |value| > max && max > 3 ==> r[..max - 3] == value[..max - 3] && r[max - 3..] == Ellipsis
  {
    if |value| <= max then value
    else if max <= 3 then value[..max]
    else value[..max - 3] + Ellipsis
  }

  /** The skill-name segment: the name cut to 12 and padded to 20. */
  function SkillNameSegment(name: string): (r: string)
    ensures |r| == 20
    ensures r[..|Truncate(name, 12)|] == Truncate(name, 12)
  {
    PadEnd(Truncate(name, 12), 20)
  }

  /** The skill-description segment: the description cut to 30 and padded to 30. */
  function SkillDescSegment(desc: string): (r: string)
    ensures |r| == 30
    ensures r[..|Truncate(desc, 30)|] == Truncate(desc, 30)
  {
    PadEnd(Truncate(desc, 30), 30)
  }

  /** The flavor segment: the flavor text cut to 35 and padded to 35. */
  function FlavorSegment(flavor: string): (r: string)
    ensures |r| == 35
    ensures r[..|Truncate(flavor, 35)|] == Truncate(flavor, 35)
  {
    PadEnd(Truncate(flavor, 35), 35)
  }

  // ---------------------------------------------------------------------------
  // Field normalisation

  /** A field counts as missing when it is absent or made only of whitespace. */
  predicate Blank(v: Option<string>) {
    v.None? || forall i :: 0 <= i < |v.value| ==> IsJsSpace(v.value[i])
  }

  /** `v?.trim() ? v : placeholder`: the value itself, untrimmed, when it is not blank. */
  function OrPlaceholder(v: Option<string>, placeholder: string): string {
    if JsPresent(v) then v.value else placeholder
  }

  /** `#` and the trimmed card number left-padded with '0' to three characters. */
  function CardNumberText(v: Option<string>): string {
    if JsPresent(v) then "#" + PadStart(JsTrim(v.value), 3, '0') else CardNumberPlaceholder
  }

  /** The display strings of the header, the stats and the meta line. */
  datatype Display = Display(
    typeStr: string,
    rarityStr: string,
    cardNameStr: string,
    attributeStr: string,
    attackStr: string,
    healthStr: string,
    cardNumberStr: string,
    seriesStr: string)

  function Normalize(input: CardFields): Display {
    Display(
      OrPlaceholder(input.cardType, TypePlaceholder),
      OrPlaceholder(input.rarity, RarityPlaceholder),
      OrPlaceholder(input.cardName, DefaultCardName),
      OrPlaceholder(input.attribute, AttributePlaceholder),
      OrPlaceholder(input.attack, DefaultStat),
      OrPlaceholder(input.health, DefaultStat),
      CardNumberText(input.cardNumber),
      OrPlaceholder(input.series, SeriesPlaceholder))
  }

  /** Blankness in the sense of `trim()`: nothing but whitespace, checked character by character. */
  lemma {:induction false} JsPresentIffNotBlank(v: Option<string>)
    ensures JsPresent(v) <==> !Blank(v)
  {
    if v.Some? {
      TrimBlank(v.value, IsJsSpace);
    }
  }

  /** Every field falls back to its placeholder exactly when it is blank or absent, and is
      kept verbatim (untrimmed) otherwise; the card number is `#`, zero-padded. */
  lemma NormalizeFallbacks(input: CardFields)
    ensures var d := Normalize(input);
      && d.typeStr == (if Blank(input.cardType) then TypePlaceholder else input.cardType.value)
      && d.rarityStr == (if Blank(input.rarity) then RarityPlaceholder else input.rarity.value)
      && d.cardNameStr == (if Blank(input.cardName) then DefaultCardName else input.cardName.value)
      && d.attributeStr == (if Blank(input.attribute) then AttributePlaceholder else input.attribute.value)
      && d.attackStr == (if Blank(input.attack) then DefaultStat else input.attack.value)
      && d.healthStr == (if Blank(input.health) then DefaultStat else input.health.value)
      && d.seriesStr == (if Blank(input.series) then SeriesPlaceholder else input.series.value)
      && d.cardNumberStr == (if Blank(input.cardNumber) then CardNumberPlaceholder
                             else "#" + PadStart(JsTrim(input.cardNumber.value), 3, '0'))
  {
    JsPresentIffNotBlank(input.cardType);
    JsPresentIffNotBlank(input.rarity);
    JsPresentIffNotBlank(input.cardName);
    JsPresentIffNotBlank(input.attribute);
    JsPresentIffNotBlank(input.attack);
    JsPresentIffNotBlank(input.health);
    JsPresentIffNotBlank(input.series);
    JsPresentIffNotBlank(input.cardNumber);
  }

  /** A given card number shows as '#', then zeros, then the trimmed number, at least four
      characters in all; a number of three or more characters gets no zeros. */
  lemma CardNumberShape(v: Option<string>)
    requires !Blank(v)
    ensures var r := CardNumberText(v); var t := JsTrim(v.value);
      && |r| == 1 + (if |t| < 3 then 3 else |t|)
      && r[0] == '#'
      && r[|r| - |t|..] == t
      && (forall i :: 1 <= i < |r| - |t| ==> r[i] == '0')
      && (|t| >= 3 ==> r == "#" + t)
  {
    JsPresentIffNotBlank(v);
    var t := JsTrim(v.value);
    var p := PadStart(t, 3, '0');
    assert CardNumberText(v) == "#" + p;
    forall i | 1 <= i < 1 + |p| - |t| ensures ("#" + p)[i] == '0' {
      assert ("#" + p)[i] == p[i - 1];
    }
    assert ("#" + p)[1 + |p| - |t|..] == p[|p| - |t|..];
  }

  // ---------------------------------------------------------------------------
  // The visual block

  /** One skill block: the name row, the description row and a blank row. */
  function SkillBlock(head: string, name: string, desc: string): string {
    head + SkillNameSegment(name) + RowEnd + DescHead + SkillDescSegment(desc) + RowEnd + BlankRow
  }

  /** The blocks pushed for the skills whose names are not blank, skill 1 first. */
  function SkillBlocks(input: CardFields): seq<string> {
    (if JsPresent(input.skill1Name)
     then [SkillBlock(Skill1Head, input.skill1Name.value, OrElse(input.skill1Description, ""))]
     else [])
    + (if JsPresent(input.skill2Name)
       then [SkillBlock(Skill2Head, input.skill2Name.value, OrElse(input.skill2Description, ""))]
       else [])
  }

  /** `skillBlocks.join('') || BlankRow`. */
  function SkillsBlock(input: CardFields): string {
    var joined := Join(SkillBlocks(input), "");
    if joined == "" then BlankRow else joined
  }

  /** The flavor block: the flavor row and a blank row, or only a blank row. */
  function FlavorBlock(input: CardFields): string {
    if JsPresent(input.flavorText)
    then FlavorHead + FlavorSegment(input.flavorText.value) + FlavorEnd + BlankRow
    else BlankRow
  }

  /** The stats text before padding. */
  function StatsText(attack: string, health: string): string {
    AttackMark + attack + HealthMark + health
  }

  /** The stats line: the stats text padded to 35. */
  function StatsLine(d: Display): string {
    PadEnd(StatsText(d.attackStr, d.healthStr), 35)
  }

  /** The meta line: the card number padded to 18, then the series padded to 17. */
  function MetaLine(d: Display): string {
    PadEnd(d.cardNumberStr, 18) + PadEnd(d.seriesStr, 17)
  }

  /** A skill block appears exactly for each skill whose name is not blank, skill 1 before
      skill 2, each skill's name and description in fixed-width segments; with no skill the
      block is one blank row. */
  lemma SkillsBlockCases(input: CardFields)
    ensures var b1 := SkillBlock(Skill1Head, input.skill1Name.GetOr(""), OrElse(input.skill1Description, ""));
      var b2 := SkillBlock(Skill2Head, input.skill2Name.GetOr(""), OrElse(input.skill2Description, ""));
      && (Blank(input.skill1Name) && Blank(input.skill2Name) ==> SkillsBlock(input) == BlankRow)
      && (!Blank(input.skill1Name) && Blank(input.skill2Name) ==> SkillsBlock(input) == b1)
      && (Blank(input.skill1Name) && !Blank(input.skill2Name) ==> SkillsBlock(input) == b2)
      && (!Blank(input.skill1Name) && !Blank(input.skill2Name) ==> SkillsBlock(input) == b1 + b2)
  {
    JsPresentIffNotBlank(input.skill1Name);
    JsPresentIffNotBlank(input.skill2Name);
    var p1, p2 := JsPresent(input.skill1Name), JsPresent(input.skill2Name);
    var b1 := SkillBlock(Skill1Head, input.skill1Name.GetOr(""), OrElse(input.skill1Description, ""));
    var b2 := SkillBlock(Skill2Head, input.skill2Name.GetOr(""), OrElse(input.skill2Description, ""));
    assert SkillBlocks(input) == (if p1 then [b1] else []) + (if p2 then [b2] else []);
    SkillBlockNotEmpty(Skill1Head, input.skill1Name.GetOr(""), OrElse(input.skill1Description, ""));
    SkillBlockNotEmpty(Skill2Head, input.skill2Name.GetOr(""), OrElse(input.skill2Description, ""));
    ChooseBlocks(p1, b1, p2, b2);
  }

  /** Joining at most two non-empty pieces, with the blank row when there is none. */
  lemma ChooseBlocks(p1: bool, b1: string, p2: bool, b2: string)
    requires b1 != [] && b2 != []
    ensures var j := Join((if p1 then [b1] else []) + (if p2 then [b2] else []), "");
      var r := if j == "" then BlankRow else j;
      && (!p1 && !p2 ==> r == BlankRow) && (p1 && !p2 ==> r == b1)
      && (!p1 && p2 ==> r == b2) && (p1 && p2 ==> r == b1 + b2)
  {
    JoinOptional(p1, b1, p2, b2);
    assert b1 + "" == b1 && "" + b2 == b2;
  }

  /** At most two optional pieces joined without a separator are their concatenation. */
  lemma JoinOptional(p1: bool, b1: string, p2: bool, b2: string)
    ensures Join((if p1 then [b1] else []) + (if p2 then [b2] else []), "")
            == (if p1 then b1 else "") + (if p2 then b2 else "")
  {
    if p1 && p2 {
      assert [b1] + [b2] == [b1, b2];
      assert [b1, b2][1..] == [b2];
    } else if p1 {
      assert [b1] + [] == [b1];
    } else if p2 {
      assert [] + [b2] == [b2];
    }
  }

  /** A skill block starts with its head, so it is never empty. */
  lemma SkillBlockNotEmpty(head: string, name: string, desc: string)
    requires head != []
    ensures SkillBlock(head, name, desc) != []
  {
  }

  /** The flavor row appears only for a non-blank flavor text; its segment is 35 wide. */
  lemma FlavorBlockCases(input: CardFields)
    ensures Blank(input.flavorText) ==> FlavorBlock(input) == BlankRow
    ensures !Blank(input.flavorText) ==>
      FlavorBlock(input) == FlavorHead + FlavorSegment(input.flavorText.value) + FlavorEnd + BlankRow
  {
    JsPresentIffNotBlank(input.flavorText);
  }

  /** The stats line is at least 35 wide and exactly as long as the raw text when that is
      longer; the meta line puts the card number in the first 18 columns and the series in the
      next 17 whenever they fit. */
  lemma StatsAndMetaWidths(d: Display)
    ensures |StatsLine(d)| == if 8 + |d.attackStr| + |d.healthStr| < 35 then 35
                              else 8 + |d.attackStr| + |d.healthStr|
    ensures |d.cardNumberStr| <= 18 && |d.seriesStr| <= 17 ==>
      && |MetaLine(d)| == 35
      && MetaLine(d)[..|d.cardNumberStr|] == d.cardNumberStr
      && MetaLine(d)[18..18 + |d.seriesStr|] == d.seriesStr
  {
    if |d.cardNumberStr| <= 18 && |d.seriesStr| <= 17 {
      var left := PadEnd(d.cardNumberStr, 18);
      var right := PadEnd(d.seriesStr, 17);
      assert MetaLine(d)[18..18 + |d.seriesStr|] == right[..|d.seriesStr|];
      assert MetaLine(d)[..|d.cardNumberStr|] == left[..|d.cardNumberStr|];
    }
  }

  // ---------------------------------------------------------------------------
  // The structured data record

  datatype Meta = Meta(cardNumber: string, series: string)

  /** The `cardData` record that is serialised into `{{cardDataJson}}`. */
  datatype CardData = CardData(
    layer2: Layer,
    layer1: Layer,
    header: Header,
    skills: seq<Skill>,
    stats: Stats,
    description: Option<string>,
    meta: Meta)

  /** The skills pushed into `cardData.skills`. */
  function DataSkills(input: CardFields): seq<Skill> {
    (if JsPresent(input.skill1Name)
     then [Skill(input.skill1Name.value, OrElse(input.skill1Description, ""))] else [])
    + (if JsPresent(input.skill2Name)
       then [Skill(input.skill2Name.value, OrElse(input.skill2Description, ""))] else [])
  }

  function CardDataOf(input: CardFields): CardData {
    var d := Normalize(input);
    CardData(
      BackgroundLayer(OrElse(input.backgroundImageRef, NoReference)),
      CharacterLayer(OrElse(input.characterImageRef, NoReference)),
      Header(d.typeStr, d.rarityStr, d.cardNameStr, d.attributeStr),
      DataSkills(input),
      Stats(d.attackStr, d.healthStr),
      if Truthy(input.flavorText) then Some(input.flavorText.value) else None,
      Meta(d.cardNumberStr, d.seriesStr))
  }

  /** The references fall back to "없음", the description is null exactly when the flavor
      text is absent or empty, and the skills are those with non-blank names, in order, with
      the description defaulting to "". */
  lemma CardDataFields(input: CardFields)
    ensures var data := CardDataOf(input);
      && data.layer2.reference == (if Truthy(input.backgroundImageRef) then input.backgroundImageRef.value else NoReference)
      && data.layer1.reference == (if Truthy(input.characterImageRef) then input.characterImageRef.value else NoReference)
      && (data.description.None? <==> input.flavorText.None? || input.flavorText.value == "")
      && (data.description.Some? ==> data.description == input.flavorText)
      && |data.skills| == (if Blank(input.skill1Name) then 0 else 1) + (if Blank(input.skill2Name) then 0 else 1)
      && (!Blank(input.skill1Name) ==> data.skills[0] == Skill(input.skill1Name.value, OrElse(input.skill1Description, "")))
      && (!Blank(input.skill2Name) ==> data.skills[|data.skills| - 1] == Skill(input.skill2Name.value, OrElse(input.skill2Description, "")))
  {
    JsPresentIffNotBlank(input.skill1Name);
    JsPresentIffNotBlank(input.skill2Name);
  }

  /** The visual skill blocks and the record's skills describe the same skills: one block per
      record skill, in the same order, built from that skill's name and description. */
  lemma VisualAndDataSkillsAgree(input: CardFields)
    ensures var blocks := SkillBlocks(input); var skills := CardDataOf(input).skills;
      && |blocks| == |skills|
      && forall k :: 0 <= k < |blocks| ==>
           blocks[k] == SkillBlock(if k == 0 && JsPresent(input.skill1Name) then Skill1Head else Skill2Head,
                                   skills[k].name, skills[k].description)
  {
  }

  // ---------------------------------------------------------------------------
  // Substitution

  /** One `(token, value)` pair of the replacement table. */
  datatype Replacement = Replacement(token: string, value: string)

  predicate ValidReplacements(reps: seq<Replacement>) {
    forall k :: 0 <= k < |reps| ==> reps[k].token != []
  }

  /** The template after applying `reps` one after another, each replacing every occurrence of
      its token (`prompt.split(key).join(value)`). */
  function Substitute(template: string, reps: seq<Replacement>): string
    requires ValidReplacements(reps)
    decreases |reps|
  {
    if reps == [] then template
    else
      var last := reps[|reps| - 1];
      ReplaceAll(Substitute(template, reps[..|reps| - 1]), last.token, last.value)
  }

  /** Substituting a concatenation of tables is substituting the first, then the second. */
  lemma {:induction false} SubstituteInOrder(template: string, a: seq<Replacement>, b: seq<Replacement>)
    requires ValidReplacements(a) && ValidReplacements(b)
    ensures ValidReplacements(a + b)
    ensures Substitute(template, a + b) == Substitute(Substitute(template, a), b)
    decreases |b|
  {
    if b != [] {
      var b' := b[..|b| - 1];
      assert (a + b)[..|a + b| - 1] == a + b';
      SubstituteInOrder(template, a, b');
    } else {
      assert a + b == a;
    }
  }

  /** A template that contains none of the tokens comes back unchanged. */
  lemma {:induction false} SubstituteAbsent(template: string, reps: seq<Replacement>)
    requires ValidReplacements(reps)
    requires forall k :: 0 <= k < |reps| ==> !Occurs(template, reps[k].token)
    ensures Substitute(template, reps) == template
    decreases |reps|
  {
    if reps != [] {
      var last := reps[|reps| - 1];
      SubstituteAbsent(template, reps[..|reps| - 1]);
      ReplaceAllAbsent(template, last.token, last.value);
    }
  }

  /** The replacement table, in the order of `replacements`. */
  function Replacements(input: CardFields, serialize: CardData -> string): (reps: seq<Replacement>)
    ensures |reps| == |Tokens| && forall k :: 0 <= k < |reps| ==> reps[k].token == Tokens[k]
    ensures ValidReplacements(reps)
  {
    var d := Normalize(input);
    [Replacement(TypeToken, d.typeStr),
     Replacement(RarityToken, d.rarityStr),
     Replacement(CardNameToken, d.cardNameStr),
     Replacement(AttributeToken, d.attributeStr),
     Replacement(SkillsBlockToken, SkillsBlock(input)),
     Replacement(FlavorBlockToken, FlavorBlock(input)),
     Replacement(StatsLineToken, StatsLine(d)),
     Replacement(MetaLineToken, MetaLine(d)),
     Replacement(CardDataJsonToken, serialize(CardDataOf(input)))]
  }

  /** The prompt `buildPrompt` returns, as a function of the template, the fields and the
      serialiser. */
  function Prompt(template: string, input: CardFields, serialize: CardData -> string): string {
    Substitute(template, Replacements(input, serialize))
  }

  /** The header, stats and meta of the data record are exactly the strings substituted into
      the visual block. */
  lemma DataRecordReusesDisplayStrings(input: CardFields, serialize: CardData -> string)
    ensures var data := CardDataOf(input); var reps := Replacements(input, serialize);
      && data.header == Header(reps[0].value, reps[1].value, reps[2].value, reps[3].value)
      && reps[6].value == PadEnd(StatsText(data.stats.attack, data.stats.health), 35)
      && reps[7].value == PadEnd(data.meta.cardNumber, 18) + PadEnd(data.meta.series, 17)
      && reps[8].value == serialize(data)
  {
  }

  /** A template without any of the nine tokens is the prompt, whatever the fields. */
  lemma TemplateWithoutTokens(template: string, input: CardFields, serialize: CardData -> string)
    requires forall k :: 0 <= k < |Tokens| ==> !Occurs(template, Tokens[k])
    ensures Prompt(template, input, serialize) == template
  {
    SubstituteAbsent(template, Replacements(input, serialize));
  }

  /** `buildPrompt`: computes the display strings, pushes the skill blocks and the record's
      skills, then replaces the tokens one after another. */
  method BuildPrompt(template: string, input: CardFields, serialize: CardData -> string)
    returns (prompt: string)
    ensures prompt == Prompt(template, input, serialize)
  {
    var typeStr := OrPlaceholder(input.cardType, TypePlaceholder);
    var rarityStr := OrPlaceholder(input.rarity, RarityPlaceholder);
    var cardNameStr := OrPlaceholder(input.cardName, DefaultCardName);
    var attributeStr := OrPlaceholder(input.attribute, AttributePlaceholder);
    var attackStr := OrPlaceholder(input.attack, DefaultStat);
    var healthStr := OrPlaceholder(input.health, DefaultStat);
    var cardNumberStr := CardNumberText(input.cardNumber);
    var seriesStr := OrPlaceholder(input.series, SeriesPlaceholder);

    var skillsBlock := BuildSkillsBlock(input);
    var flavorBlock := if JsPresent(input.flavorText)
      then FlavorHead + PadEnd(Truncate(input.flavorText.value, 35), 35) + FlavorEnd + BlankRow
      else BlankRow;
    var statsLine := PadEnd(AttackMark + attackStr + HealthMark + healthStr, 35);
    var leftMeta := PadEnd(cardNumberStr, 18);
    var rightMeta := PadEnd(seriesStr, 17);
    var metaLine := leftMeta + rightMeta;
    ghost var d := Normalize(input);
    assert flavorBlock == FlavorBlock(input);
    assert statsLine == StatsLine(d);
    assert metaLine == MetaLine(d);

    var cardData := BuildCardData(input, typeStr, rarityStr, cardNameStr, attributeStr,
                                  attackStr, healthStr, cardNumberStr, seriesStr);

    var replacements := [
      Replacement(TypeToken, typeStr),
      Replacement(RarityToken, rarityStr),
      Replacement(CardNameToken, cardNameStr),
      Replacement(AttributeToken, attributeStr),
      Replacement(SkillsBlockToken, skillsBlock),
      Replacement(FlavorBlockToken, flavorBlock),
      Replacement(StatsLineToken, statsLine),
      Replacement(MetaLineToken, metaLine),
      Replacement(CardDataJsonToken, serialize(cardData))];
    assert replacements == Replacements(input, serialize);

    prompt := ApplyReplacements(template, replacements);
  }

  /** The skills part of `buildPrompt`: one block per skill with a non-blank name, joined, or
      the blank row when there is none. */
  method BuildSkillsBlock(input: CardFields) returns (skillsBlock: string)
    ensures skillsBlock == SkillsBlock(input)
  {
    ghost var first := if JsPresent(input.skill1Name)
      then [SkillBlock(Skill1Head, input.skill1Name.value, OrElse(input.skill1Description, ""))] else [];
    ghost var second := if JsPresent(input.skill2Name)
      then [SkillBlock(Skill2Head, input.skill2Name.value, OrElse(input.skill2Description, ""))] else [];
    var skillBlocks: seq<string> := [];
    if JsPresent(input.skill1Name) {
      skillBlocks := skillBlocks + [SkillBlock(Skill1Head, input.skill1Name.value, OrElse(input.skill1Description, ""))];
    }
    assert skillBlocks == first;
    if JsPresent(input.skill2Name) {
      skillBlocks := skillBlocks + [SkillBlock(Skill2Head, input.skill2Name.value, OrElse(input.skill2Description, ""))];
    }
    assert skillBlocks == first + second;
    var joined := Join(skillBlocks, "");
    skillsBlock := if joined != "" then joined else BlankRow;
  }

  /** The record part of `buildPrompt`: the layers, header, stats, description and meta, then
      the skills pushed one after another. The strings are the display strings computed
      before. */
  method BuildCardData(input: CardFields, typeStr: string, rarityStr: string, cardNameStr: string,
                       attributeStr: string, attackStr: string, healthStr: string,
                       cardNumberStr: string, seriesStr: string)
    returns (cardData: CardData)
    requires Normalize(input) == Display(typeStr, rarityStr, cardNameStr, attributeStr,
                                         attackStr, healthStr, cardNumberStr, seriesStr)
    ensures cardData == CardDataOf(input)
  {
    cardData := CardData(
      BackgroundLayer(OrElse(input.backgroundImageRef, NoReference)),
      CharacterLayer(OrElse(input.characterImageRef, NoReference)),
      Header(typeStr, rarityStr, cardNameStr, attributeStr),
      [],
      Stats(attackStr, healthStr),
      if Truthy(input.flavorText) then Some(input.flavorText.value) else None,
      Meta(cardNumberStr, seriesStr));
    if JsPresent(input.skill1Name) {
      cardData := cardData.(skills := cardData.skills + [Skill(input.skill1Name.value, OrElse(input.skill1Description, ""))]);
    }
    ghost var firstSkills := cardData.skills;
    assert firstSkills == (if JsPresent(input.skill1Name)
      then [Skill(input.skill1Name.value, OrElse(input.skill1Description, ""))] else []);
    if JsPresent(input.skill2Name) {
      cardData := cardData.(skills := cardData.skills + [Skill(input.skill2Name.value, OrElse(input.skill2Description, ""))]);
    }
    assert cardData.skills == firstSkills + (if JsPresent(input.skill2Name)
      then [Skill(input.skill2Name.value, OrElse(input.skill2Description, ""))] else []);
    assert cardData.skills == DataSkills(input);
    assert cardData == CardDataOf(input);
  }

  /** The `forEach` over the replacement table: each entry rewrites the prompt so far. */
  method ApplyReplacements(template: string, replacements: seq<Replacement>) returns (prompt: string)
    requires ValidReplacements(replacements)
    ensures prompt == Substitute(template, replacements)
  {
    prompt := template;
    var i := 0;
    while i < |replacements|
      invariant 0 <= i <= |replacements|
      invariant prompt == Substitute(template, replacements[..i])
    {
      assert replacements[..i + 1][..i] == replacements[..i];
      prompt := ReplaceAll(prompt, replacements[i].token, replacements[i].value);
      i := i + 1;
    }
    assert replacements[..i] == replacements;
  }
}
