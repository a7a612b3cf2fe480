/** Where the two prompt generators agree and where they differ: the frontend builder trims
    with JavaScript's whitespace class and marks truncation with "...", the backend service
    strips with Python's class, tests header and stats fields only for emptiness, and cuts
    without a marker. */
module PromptAgreement {
  import opened Wrappers
  import opened Text
  import opened Card
  import PB = PromptBuilder
  import CS = CardService

  // ---------------------------------------------------------------------------
  // Fallback labels

  /** A present, non-empty value made only of whitespace. */
  predicate WhitespaceOnly(v: Option<string>) {
    v.Some? && v.value != [] && PB.Blank(v)
  }

  /** A header or stats label is the same in both generators exactly when the field is not a
      non-empty, whitespace-only value: the frontend replaces such a value by the placeholder,
      the backend keeps it. */
  lemma LabelsAgree(v: Option<string>, placeholder: string)
    requires !PB.Blank(Some(placeholder))
    ensures PB.OrPlaceholder(v, placeholder) == OrElse(v, placeholder)
            <==> !WhitespaceOnly(v)
  {
    PB.JsPresentIffNotBlank(v);
    if v.Some? && v.value != [] && PB.Blank(v) && |placeholder| == |v.value| {
      var i :| 0 <= i < |placeholder| && !IsJsSpace(placeholder[i]);
      assert placeholder[i] != v.value[i];
    }
  }

  /** The header fields of a card: both generators show the same four labels when none of
      them is a non-empty, whitespace-only value. */
  lemma HeaderLabelsAgree(c: CardFields)
    requires !WhitespaceOnly(c.cardType) && !WhitespaceOnly(c.rarity)
    requires !WhitespaceOnly(c.cardName) && !WhitespaceOnly(c.attribute)
    ensures var d := PB.Normalize(c); var b := CS.LabelsOf(c);
      && d.typeStr == b.typeStr && d.rarityStr == b.rarityStr
      && d.cardNameStr == b.cardNameStr && d.attributeStr == b.attributeStr
  {
    assert !IsJsSpace(PB.TypePlaceholder[0]) && !IsJsSpace(PB.RarityPlaceholder[0]);
    assert !IsJsSpace(PB.DefaultCardName[0]) && !IsJsSpace(PB.AttributePlaceholder[0]);
    LabelsAgree(c.cardType, PB.TypePlaceholder);
    LabelsAgree(c.rarity, PB.RarityPlaceholder);
    LabelsAgree(c.cardName, PB.DefaultCardName);
    LabelsAgree(c.attribute, PB.AttributePlaceholder);
  }

  /** A single space as the card name: the frontend shows "카드명", the backend the space. */
  lemma SpaceCardNameDiffers()
    ensures PB.Normalize(NoFields.(cardName := Some(" "))).cardNameStr == "카드명"
    ensures CS.LabelsOf(NoFields.(cardName := Some(" "))).cardNameStr == " "
  {
    PB.JsPresentIffNotBlank(Some(" "));
  }

  // ---------------------------------------------------------------------------
  // Truncation

  /** Two strings of the same length padded to a common width are equal only if they were. */
  lemma PadEndInjective(a: string, b: string, width: nat)
    requires |a| == |b| <= width
    requires PadEnd(a, width) == PadEnd(b, width)
    ensures a == b
  {
    assert PadEnd(a, width)[..|a|] == a;
    assert PadEnd(b, width)[..|b|] == b;
  }

  /** The frontend's truncation with "..." and the backend's plain cut give the same text
      exactly when the value fits, or when the three characters the marker replaces are
      themselves "...". */
  lemma TruncateAgreesWithCut(s: string, max: nat)
    requires max > 3
    ensures PB.Truncate(s, max) == CS.Cut(s, max) <==> |s| <= max || s[max - 3..max] == PB.Ellipsis
  {
    if |s| > max {
      var u := CS.Cut(s, max);
      assert u[max - 3..max] == s[max - 3..max];
      assert s[..max - 3] + s[max - 3..max] == u;
    }
  }

  /** The skill-name segments agree exactly when the name fits in 12 characters or its
      characters 10 to 12 are "...". */
  lemma NameSegmentsAgree(name: string)
    ensures PB.SkillNameSegment(name) == CS.NameSegment(name)
            <==> |name| <= 12 || name[9..12] == PB.Ellipsis
  {
    TruncateAgreesWithCut(name, 12);
    if PB.SkillNameSegment(name) == CS.NameSegment(name) {
      PadEndInjective(PB.Truncate(name, 12), CS.Cut(name, 12), 20);
    }
  }

  /** The skill-description segments agree exactly when the description fits in 30
      characters or its characters 28 to 30 are "...". */
  lemma DescSegmentsAgree(desc: string)
    ensures PB.SkillDescSegment(desc) == CS.DescSegment(desc)
            <==> |desc| <= 30 || desc[27..30] == PB.Ellipsis
  {
    TruncateAgreesWithCut(desc, 30);
    if PB.SkillDescSegment(desc) == CS.DescSegment(desc) {
      PadEndInjective(PB.Truncate(desc, 30), CS.Cut(desc, 30), 30);
    }
  }

  /** The flavor segments agree exactly when the flavor text fits in 35 characters or its
      characters 33 to 35 are "...". */
  lemma FlavorSegmentsAgree(flavor: string)
    ensures PB.FlavorSegment(flavor) == CS.FlavorSegment(flavor)
            <==> |flavor| <= 35 || flavor[32..35] == PB.Ellipsis
  {
    TruncateAgreesWithCut(flavor, 35);
    if PB.FlavorSegment(flavor) == CS.FlavorSegment(flavor) {
      PadEndInjective(PB.Truncate(flavor, 35), CS.Cut(flavor, 35), 35);
    }
  }

  // ---------------------------------------------------------------------------
  // Which skills count

  /** A value counts as given in both generators alike when the two whitespace classes agree
      on its characters. */
  lemma PresenceAgrees(v: Option<string>)
    requires v.Some? ==> forall i :: 0 <= i < |v.value| ==> (IsJsSpace(v.value[i]) <==> IsPySpace(v.value[i]))
    ensures JsPresent(v) <==> PyPresent(v)
  {
    PB.JsPresentIffNotBlank(v);
    CS.PyPresentIffNotBlank(v);
  }

  /** A byte-order mark alone is whitespace to `trim()` but not to `strip()`. */
  lemma ByteOrderMarkDiffers()
    ensures !JsPresent(Some("\U{FEFF}")) && PyPresent(Some("\U{FEFF}"))
  {
    PB.JsPresentIffNotBlank(Some("\U{FEFF}"));
    CS.PyPresentIffNotBlank(Some("\U{FEFF}"));
  }

  /** An information separator alone is whitespace to `strip()` but not to `trim()`. */
  lemma SeparatorDiffers()
    ensures JsPresent(Some("\U{1C}")) && !PyPresent(Some("\U{1C}"))
  {
    PB.JsPresentIffNotBlank(Some("\U{1C}"));
    CS.PyPresentIffNotBlank(Some("\U{1C}"));
  }

  /** The record's skill lists are equal whenever both generators agree on which skill names
      are given: the entries carry the same untruncated names and descriptions. */
  lemma DataSkillsAgree(c: CardFields)
    requires JsPresent(c.skill1Name) <==> PyPresent(c.skill1Name)
    requires JsPresent(c.skill2Name) <==> PyPresent(c.skill2Name)
    ensures PB.DataSkills(c) == CS.DataSkills(c)
  {
    CS.PyPresentIffNotBlank(c.skill1Name);
    CS.PyPresentIffNotBlank(c.skill2Name);
  }

  /** The layers and the description of the two records are always the same. */
  lemma RecordsShareLayersAndDescription(c: CardFields)
    ensures PB.CardDataOf(c).layer2 == CS.CardDataOf(c).layer2
    ensures PB.CardDataOf(c).layer1 == CS.CardDataOf(c).layer1
    ensures PB.CardDataOf(c).description == CS.CardDataOf(c).description
  {
  }

  /** With no skill the frontend's skill section is one blank row, the backend's is empty. */
  lemma NoSkillSections(c: CardFields)
    requires !JsPresent(c.skill1Name) && !JsPresent(c.skill2Name)
    requires !PyPresent(c.skill1Name) && !PyPresent(c.skill2Name)
    ensures PB.SkillsBlock(c) == PB.BlankRow
    ensures CS.SkillsRows(c) == ""
  {
    CS.PyPresentIffNotBlank(c.skill1Name);
    CS.PyPresentIffNotBlank(c.skill2Name);
  }

  /** One skill's rows are the same text in both generators when its name and description
      segments agree. */
  lemma SkillRowsAgree(head: string, name: string, desc: Option<string>)
    requires PB.SkillNameSegment(name) == CS.NameSegment(name)
    requires PB.SkillDescSegment(OrElse(desc, "")) == CS.DescSegment(OrElse(desc, ""))
    ensures PB.SkillBlock(head, name, OrElse(desc, "")) == CS.SkillRows(head, name, desc)
  {
    var n := CS.NameSegment(name);
    var s := CS.DescSegment(OrElse(desc, ""));
    assert PB.RowEnd == CS.RowEnd && PB.DescHead == CS.DescHead && PB.BlankRow == CS.BlankRow;
    Regroup(head + n + CS.RowEnd, CS.DescHead, s, CS.RowEnd, CS.BlankRow);
  }

  lemma Regroup(x: string, a: string, b: string, c: string, d: string)
    ensures x + a + b + c + d == x + (a + b + c) + d
  {
  }
}
