/** The card records shared by the two prompt generators and the admin pages. */
module Card {
  import opened Wrappers

  /** The optional fields a prompt is built from. On the frontend this is `PromptInput`; on
      the backend it is the request's `cardData` together with the request's two image URLs
      (`characterImageUrl`, `backgroundImageUrl`), which take the place of the two image
      references. `None` is an absent field (`undefined` / `None`). */
  datatype CardFields = CardFields(
    cardType: Option<string>,
    rarity: Option<string>,
    cardName: Option<string>,
    attribute: Option<string>,
    attack: Option<string>,
    health: Option<string>,
    cardNumber: Option<string>,
    skill1Name: Option<string>,
    skill1Description: Option<string>,
    skill2Name: Option<string>,
    skill2Description: Option<string>,
    flavorText: Option<string>,
    series: Option<string>,
    characterImageRef: Option<string>,
    backgroundImageRef: Option<string>)

  /** A card with every field absent. */
  const NoFields := CardFields(None, None, None, None, None, None, None,
                               None, None, None, None, None, None, None, None)

  /** A persisted card as the admin pages receive it from the card list. The card number is
      what the backend sends: the stored string, or null when the card has none. */
  datatype StoredCard = StoredCard(
    cardNumber: Option<string>,
    cardName: string,
    cardType: string,
    attribute: string,
    rarity: string,
    attack: string,
    health: string,
    skill1Name: Option<string>,
    skill1Description: Option<string>,
    skill2Name: Option<string>,
    skill2Description: Option<string>,
    flavorText: Option<string>,
    series: Option<string>,
    characterImageUrl: Option<string>,
    backgroundImageUrl: Option<string>,
    generatedImageUrl: Option<string>,
    generatedPrompt: Option<string>)

  // The pieces of the structured data block that both generators serialise.

  /** One image layer of the card layout: its type, its description and the image reference. */
  datatype Layer = Layer(kind: string, description: string, reference: string)

  /** The header fields of the data block. */
  datatype Header = Header(cardType: string, rarity: string, cardName: string, attribute: string)

  /** One skill of the data block. */
  datatype Skill = Skill(name: string, description: string)

  /** The stats of the data block. */
  datatype Stats = Stats(attack: string, health: string)

  /** The marker written for a missing image reference. */
  const NoReference := "없음"

  /** Layer 2: the background image covering the whole card. */
  function BackgroundLayer(reference: string): Layer {
    Layer("배경 이미지", "카드 전체를 덮는 배경 이미지", reference)
  }

  /** Layer 1: the main character image placed in the middle, above the background. */
  function CharacterLayer(reference: string): Layer {
    Layer("메인 캐릭터 이미지", "배경 위 중앙에 배치되는 메인 캐릭터", reference)
  }
}
