/** The card-creation page: two image slots filled by dropped files, the form, the current
    step, and the completion flags the step tabs show. */
module Wizard {
  import opened Wrappers
  import opened Text
  import TS = TypeSelector

  /** The two steps of the wizard. */
  datatype Step = Image | Info

  /** The form the information step edits. */
  datatype FormData = FormData(
    cardName: string,
    typeData: TS.TypeData,
    attribute: string,
    rarity: string,
    attack: string,
    health: string,
    skill1Name: string,
    skill1Description: string,
    skill2Name: string,
    skill2Description: string,
    flavorText: string,
    cardNumber: string,
    series: string)

  const DefaultCardName := "카드명"
  const AttributePlaceholder := "속성"
  const RarityPlaceholder := "[등급 아이콘]"

  /** The form as the page first shows it: placeholders everywhere and no type chosen. */
  const InitialForm := FormData(
    DefaultCardName, TS.Unset, AttributePlaceholder, RarityPlaceholder, "0", "0",
    "스킬명", "효과 설명", "스킬명", "효과 설명",
    "설명/플레이버 텍스트", "[카드 번호]", "[제작자/시리즈 정보]")

  /** Everything the page keeps in its state slots. */
  datatype PageState = PageState(
    currentStep: Step,
    characterImage: Option<string>,
    backgroundImage: Option<string>,
    formData: FormData)

  const Initial := PageState(Image, None, None, InitialForm)

  // ---------------------------------------------------------------------------
  // Completion flags

  /** `imageStepCompleted`: both images are there. */
  predicate ImageStepCompleted(s: PageState) {
    Truthy(s.characterImage) && Truthy(s.backgroundImage)
  }

  /** The type part of `infoStepCompleted`: a kingdom or a species is chosen. */
  predicate TypeChosen(t: TS.TypeData) {
    t.kingdom != "" || t.species != ""
  }

  /** `infoStepCompleted`: the name, attribute and rarity differ from their placeholders and a
      kingdom or a species is chosen. */
  predicate InfoStepCompleted(f: FormData) {
    f.cardName != DefaultCardName && TypeChosen(f.typeData)
    && f.attribute != AttributePlaceholder && f.rarity != RarityPlaceholder
  }

  /** Neither step is completed when the page opens. */
  lemma InitiallyIncomplete()
    ensures !ImageStepCompleted(Initial) && !InfoStepCompleted(Initial.formData)
  {
  }

  /** For the type part, only the kingdom and the species count: after a choice at `field`
      the condition holds exactly when a non-empty kingdom or species was chosen, or a
      level between them was chosen below an already chosen kingdom (the species is cleared
      by any choice above it). */
  lemma TypeChosenAfterChange(t: TS.TypeData, field: TS.Level, x: string)
    ensures TypeChosen(TS.Changed(t, field, x)) <==>
              ((field == TS.Kingdom || field == TS.Species) && x != "")
              || (field != TS.Kingdom && t.kingdom != "")
  {
    var r := TS.Changed(t, field, x);
    assert r.kingdom == TS.Get(r, TS.Kingdom) && r.species == TS.Get(r, TS.Species);
    if field != TS.Kingdom {
      assert TS.Index(TS.Kingdom) < TS.Index(field);
    }
    if field != TS.Species {
      assert TS.Index(TS.Species) > TS.Index(field);
    }
  }

  // ---------------------------------------------------------------------------
  // Actions

  /** `handleImageDrop` once the file has been read as `imageUrl`: the first image fills the
      character slot, the second the background slot, any later one replaces the character;
      while on the image step, filling a slot moves to the information step. */
  function Drop(s: PageState, imageUrl: string): (r: PageState)
    ensures !Truthy(s.characterImage) ==>
              r.characterImage == Some(imageUrl) && r.backgroundImage == s.backgroundImage
    ensures Truthy(s.characterImage) && !Truthy(s.backgroundImage) ==>
              r.backgroundImage == Some(imageUrl) && r.characterImage == s.characterImage
    ensures ImageStepCompleted(s) ==>
              r.characterImage == Some(imageUrl) && r.backgroundImage == s.backgroundImage
    ensures r.currentStep == Info <==> s.currentStep == Info || !ImageStepCompleted(s)
    ensures r.formData == s.formData
  {
    if !Truthy(s.characterImage) then
      s.(characterImage := Some(imageUrl),
         currentStep := if s.currentStep.Image? then Info else s.currentStep)
    else if !Truthy(s.backgroundImage) then
      s.(backgroundImage := Some(imageUrl),
         currentStep := if s.currentStep.Image? then Info else s.currentStep)
    else
      s.(characterImage := Some(imageUrl))
  }

  /** `handleReset`: both image slots emptied. */
  function Reset(s: PageState): (r: PageState)
    ensures r.characterImage.None? && r.backgroundImage.None?
    ensures r.currentStep == s.currentStep && r.formData == s.formData
  {
    s.(characterImage := None, backgroundImage := None)
  }

  /** A completed image step stays completed under every drop of a non-empty image. */
  lemma DropKeepsImagesComplete(s: PageState, imageUrl: string)
    requires ImageStepCompleted(s) && imageUrl != ""
    ensures ImageStepCompleted(Drop(s, imageUrl))
  {
  }

  /** Two non-empty images dropped into empty slots fill the character and then the
      background slot, complete the image step and end on the information step. */
  lemma TwoDropsFillBothSlots(s: PageState, first: string, second: string)
    requires s.characterImage.None? && s.backgroundImage.None?
    requires first != "" && second != ""
    ensures var r := Drop(Drop(s, first), second);
      r.characterImage == Some(first) && r.backgroundImage == Some(second)
      && ImageStepCompleted(r) && r.currentStep == Info && r.formData == s.formData
  {
    var once := Drop(s, first);
    assert Truthy(once.characterImage) && !Truthy(once.backgroundImage);
  }

  /** After a reset the image step is not completed, and the next drop fills the character
      slot again. */
  lemma ResetStartsOver(s: PageState, imageUrl: string)
    ensures !ImageStepCompleted(Reset(s))
    ensures Drop(Reset(s), imageUrl).characterImage == Some(imageUrl)
    ensures Drop(Reset(s), imageUrl).backgroundImage.None?
  {
  }

  /** The page state, held in its React state slots. */
  class Page {
    var currentStep: Step
    var characterImage: Option<string>
    var backgroundImage: Option<string>
    var formData: FormData

    function State(): PageState
      reads this
    {
      PageState(currentStep, characterImage, backgroundImage, formData)
    }

    /** The initial state: the image step, no images, the placeholder form. */
    constructor ()
      ensures State() == Initial
    {
      currentStep := Image;
      characterImage := None;
      backgroundImage := None;
      formData := InitialForm;
    }

    /** A dropped file, read as `imageUrl`, goes to the first empty slot; the delayed move to
        the information step is taken as immediate. */
    method HandleImageDrop(imageUrl: string)
      modifies this
      ensures State() == Drop(old(State()), imageUrl)
    {
      if !Truthy(characterImage) {
        characterImage := Some(imageUrl);
        if currentStep.Image? {
          currentStep := Info;
        }
      } else if !Truthy(backgroundImage) {
        backgroundImage := Some(imageUrl);
        if currentStep.Image? {
          currentStep := Info;
        }
      } else {
        characterImage := Some(imageUrl);
      }
    }

    /** Empties both image slots. */
    method HandleReset()
      modifies this
      ensures State() == Reset(old(State()))
    {
      characterImage := None;
      backgroundImage := None;
    }

    /** The remove button on the character preview. */
    method RemoveCharacterImage()
      modifies this
      ensures State() == old(State()).(characterImage := None)
    {
      characterImage := None;
    }

    /** The remove button on the background preview. */
    method RemoveBackgroundImage()
      modifies this
      ensures State() == old(State()).(backgroundImage := None)
    {
      backgroundImage := None;
    }

    /** A click on a step tab: both tabs are always enabled. */
    method SetStep(step: Step)
      modifies this
      ensures State() == old(State()).(currentStep := step)
    {
      currentStep := step;
    }

    /** The form reporting a change. */
    method SetFormData(f: FormData)
      modifies this
      ensures State() == old(State()).(formData := f)
    {
      formData := f;
    }

    /** The two completion flags the step tabs show. */
    method Steps() returns (imageCompleted: bool, infoCompleted: bool)
      ensures imageCompleted == ImageStepCompleted(State())
      ensures infoCompleted == InfoStepCompleted(formData)
    {
      imageCompleted := characterImage.Some? && characterImage.value != []
                        && backgroundImage.Some? && backgroundImage.value != [];
      infoCompleted := formData.cardName != DefaultCardName
                       && (formData.typeData.kingdom != "" || formData.typeData.species != "")
                       && formData.attribute != AttributePlaceholder
                       && formData.rarity != RarityPlaceholder;
    }
  }
}
