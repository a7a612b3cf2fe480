/** The card page of the admin area: the same thumbnail rules as the gallery, and the
    prompt panel of the selected card, which shows the stored prompt or rebuilds it. */
module AdminCardPage {
  import opened Wrappers
  import opened Text
  import opened Card
  import opened ImageRef
  import PB = PromptBuilder

  /** `getImageUrl(url)` as this page writes it: the same early returns and the same
      rewriting of `path`. */
  method GetImageUrl(url: Option<string>) returns (r: Option<string>)
    ensures r == Resolve(url)
  {
    if !Truthy(url) {
      return None;
    }
    if StartsWith(url.value, "data:image/") {
      return url;
    }
    if StartsWith(url.value, "http://") || StartsWith(url.value, "https://") {
      return url;
    }
    var path := JsTrim(url.value);
    if StartsWith(path, "/data/upload/") || StartsWith(path, "/data/upload") {
      path := Collapse(path);
      return Some(Host + path);
    }
    if StartsWith(path, "/upload/") || StartsWith(path, "/upload") {
      path := "/data" + path;
      path := Collapse(path);
      return Some(Host + path);
    }
    if !StartsWith(path, "/") {
      path := "/" + path;
    }
    path := "/data/upload" + path;
    path := Collapse(path);
    return Some(Host + path);
  }

  /** The thumbnail of a card in this page's grid. */
  method Thumbnail(card: StoredCard) returns (url: Option<string>)
    ensures url == Resolve(DisplayedSource(card))
  {
    url := GetImageUrl(Or(Or(card.generatedImageUrl, card.characterImageUrl), card.backgroundImageUrl));
  }

  // ---------------------------------------------------------------------------
  // `String(cardNumber)`

  /** `String(v)` on the card number the backend sends: the string itself, or 'null'. */
  function JsString(v: Option<string>): (s: string)
    ensures v.Some? ==> s == v.value
    ensures v.None? ==> s == "null"
  {
    match v
    case Some(x) => x
    case None => "null"
  }

  // ---------------------------------------------------------------------------
  // Rebuilding the prompt of a stored card

  /** The builder input `generatePromptFromCard` passes: the card number through `String`,
      each image URL or '없음' when it is missing or empty, every other field unchanged. */
  function PromptInputOf(card: StoredCard): (input: CardFields)
    ensures input.cardNumber == Some(JsString(card.cardNumber))
    ensures input.characterImageRef == Some(OrElse(card.characterImageUrl, NoReference))
    ensures input.backgroundImageRef == Some(OrElse(card.backgroundImageUrl, NoReference))
  {
    CardFields(
      cardType := Some(card.cardType),
      rarity := Some(card.rarity),
      cardName := Some(card.cardName),
      attribute := Some(card.attribute),
      attack := Some(card.attack),
      health := Some(card.health),
      cardNumber := Some(JsString(card.cardNumber)),
      skill1Name := card.skill1Name,
      skill1Description := card.skill1Description,
      skill2Name := card.skill2Name,
      skill2Description := card.skill2Description,
      flavorText := card.flavorText,
      series := card.series,
      characterImageRef := Some(OrElse(card.characterImageUrl, "없음")),
      backgroundImageRef := Some(OrElse(card.backgroundImageUrl, "없음")))
  }

  /** `generatePromptFromCard(card)`. */
  function PromptFromCard(card: StoredCard, template: string, serialize: PB.CardData -> string): string {
    PB.Prompt(template, PromptInputOf(card), serialize)
  }

  /** How the rebuilt prompt shows the card number: a stored number trimmed, after '#' and
      zero-padded to three; the builder's placeholder for a number made only of whitespace;
      and '#null' for a card without a number, since `String(null)` is 'null'. */
  lemma CardNumberShown(card: StoredCard)
    ensures card.cardNumber.Some? && !PB.Blank(card.cardNumber) ==>
              PB.CardNumberText(PromptInputOf(card).cardNumber)
              == "#" + PadStart(JsTrim(card.cardNumber.value), 3, '0')
    ensures card.cardNumber.Some? && PB.Blank(card.cardNumber) ==>
              PB.CardNumberText(PromptInputOf(card).cardNumber) == PB.CardNumberPlaceholder
    ensures card.cardNumber.None? ==>
              PB.CardNumberText(PromptInputOf(card).cardNumber) == "#null"
  {
    NumberShown(card.cardNumber);
  }

  /** `CardNumberText(String(v))` for each kind of card number. */
  lemma NumberShown(v: Option<string>)
    ensures v.Some? && !PB.Blank(v) ==>
              PB.CardNumberText(Some(JsString(v))) == "#" + PadStart(JsTrim(v.value), 3, '0')
    ensures v.Some? && PB.Blank(v) ==> PB.CardNumberText(Some(JsString(v))) == PB.CardNumberPlaceholder
    ensures v.None? ==> PB.CardNumberText(Some(JsString(v))) == "#null"
  {
    PB.JsPresentIffNotBlank(v);
    if v.None? {
      NullShown();
    }
  }

  /** The text 'null' is shown as '#null': it has no whitespace to trim and is longer than
      the padding. */
  lemma NullShown()
    ensures PB.CardNumberText(Some("null")) == "#null"
  {
    var s := "null";
    assert s[0] == 'n' && s[|s| - 1] == 'l';
    WordShown(s);
  }

  /** A number of three or more characters without whitespace at either end is shown as it
      is, after '#'. */
  lemma WordShown(s: string)
    requires |s| >= 3 && !IsJsSpace(s[0]) && !IsJsSpace(s[|s| - 1])
    ensures PB.CardNumberText(Some(s)) == "#" + s
  {
    TrimUnchanged(s, IsJsSpace);
    assert !PB.Blank(Some(s));
    PB.JsPresentIffNotBlank(Some(s));
    var padded := PadStart(s, 3, '0');
    assert padded == padded[|padded| - |s|..];
  }

  /** The rebuilt record's layers carry the card's image URLs, '없음' for a missing one, and
      its header the card's own fields. */
  lemma RebuiltRecordKeepsCard(card: StoredCard)
    ensures PB.CardDataOf(PromptInputOf(card)).layer1.reference == OrElse(card.characterImageUrl, NoReference)
    ensures PB.CardDataOf(PromptInputOf(card)).layer2.reference == OrElse(card.backgroundImageUrl, NoReference)
  {
    var cr := OrElse(card.characterImageUrl, NoReference);
    var br := OrElse(card.backgroundImageUrl, NoReference);
    assert cr != [] && br != [];
  }

  /** `promptText`: nothing without a selected card; otherwise the stored prompt whenever
      there is one, even an empty one, and the rebuilt prompt when there is none. */
  function PromptText(selected: Option<StoredCard>, template: string,
                      serialize: PB.CardData -> string): (text: string)
    ensures selected.None? ==> text == ""
    ensures selected.Some? && selected.value.generatedPrompt.Some? ==>
              text == selected.value.generatedPrompt.value
    ensures selected.Some? && selected.value.generatedPrompt.None? ==>
              text == PromptFromCard(selected.value, template, serialize)
  {
    match selected
    case None => ""
    case Some(card) => card.generatedPrompt.GetOr(PromptFromCard(card, template, serialize))
  }

  /** The clipboard, as the sequence of texts written to it. */
  class Clipboard {
    var written: seq<string>

    constructor()
      ensures written == []
    {
      written := [];
    }

    /** The copy button: the prompt text is written only when it is not empty. */
    method Copy(promptText: string)
      modifies this
      ensures written == old(written) + (if promptText != "" then [promptText] else [])
    {
      if promptText != "" {
        written := written + [promptText];
      }
    }
  }
}
