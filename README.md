# Trading-card creator: the formatting engine and the image-reference rules

This project models in Dafny the parts of the trading-card creator that decide *what text
and which URLs* the program produces. Everything else is rendering, routing or storage.

**Prompt generation.** A card's fields become an image-generation prompt in two ways:

- the frontend's `buildPrompt` does this in `PromptBuilder`;
- the backend's `CardService.generate_prompt` does this in `CardService`, which also holds `validate_card_data`.

`PromptAgreement` states exactly where the two generators agree and where they differ:

- blank versus falsy fallbacks;
- truncation with and without "...";
- the blank row shown when there are no skills;
- the two whitespace classes.

**Image references.** `ImageRef` holds the rule the admin pages use to turn a stored image
reference into an `<img>` URL. `AdminPage` and `AdminCardPage` are the two step-by-step copies
of that rule. `AdminCardPage` also covers the prompt the card page shows and its copy button.

**Upload helpers.** `FileUtils` models the backend's helpers:

- extension extraction;
- the allowed-file check;
- unique names;
- the prefix stripping of `get_file_path_from_url`.

**Settings.** `Config` models the comma-separated settings lists and the database URL.

**Wizard.** Two small state machines drive the creation wizard:

- `TypeSelector` is the taxonomic type picker: choosing a level clears every deeper level.
- `Wizard` is the page itself: the image-drop slots, the step tabs and the completion flags.

**Shared modules.** `Wrappers` holds `Option`. `Text` holds trimming, padding, splitting,
joining, replace-all and lower-casing. `Card` holds the field records.

**Modelling choices:**

- Optional string fields are `Option<string>`.
- JavaScript's `trim()` and Python's `strip()` use two exact whitespace predicates. The two sets differ: U+FEFF counts only for JavaScript; U+001C to U+001F and U+0085 count only for Python.
- Lengths are counted in code points, which equal JavaScript's code units for text in the Basic Multilingual Plane.
- Four things are parameters, none of them modelled:
  - the prompt template the frontend imports;
  - the two JSON serialisers;
  - the file UUID;
  - the backend's root directory.
- The imperative source code is written as methods, each proved equal to a specification function:
  - `buildPrompt`'s pushes and replacement loop;
  - `generate_prompt`'s successive `+=`;
  - `getImageUrl`'s rebinding of `path`;
  - `get_file_path_from_url`'s rebinding of `url`;
  - `handleChange`'s clearing loop.

  The properties are then proved as lemmas about those functions.
- The page's state slots are a `Wizard.Page` class whose handlers update its fields.

**Where the model follows the code rather than the documentation:**

- The backend gives absent attack and health the fallback '0' in both the layout and the JSON record; it does not keep them absent.
- Each template token is replaced at every occurrence (`split(key).join(value)`), not only at the first.
- With no skills, the backend emits no row in the skill section, while the frontend emits one blank row.
- In `Config.Defaults`, the two default list strings are written as their entries joined by commas. This is the same text as the literals in the source.

## Model

| member | source | states |
|---|---|---|
| PromptBuilder.Truncate | frontend/app/lib/promptBuilder.ts:21-25 | the value is unchanged when it fits; otherwise the result has exactly `max` characters: the plain prefix when `max` <= 3, else the first `max`-3 characters followed by "..." |
| PromptBuilder.Normalize | frontend/app/lib/promptBuilder.ts:28-37 | the display strings of the header, the stats and the meta line, each the field or its placeholder; stated by `NormalizeFallbacks` and `CardNumberShape` |
| PromptBuilder.JsPresentIffNotBlank | frontend/app/lib/promptBuilder.ts:28-37 | `v?.trim()` is truthy exactly when the value is present and not made only of JavaScript whitespace |
| PromptBuilder.NormalizeFallbacks | frontend/app/lib/promptBuilder.ts:28-37 | each header, stats and series string is its placeholder ('[타입]', '[등급]', '카드명', '[속성]', '0', '[시리즈]') exactly when the field is blank or absent, and otherwise the untrimmed value; the card number is '[카드번호]' or '#' followed by the trimmed value zero-padded to 3 |
| PromptBuilder.CardNumberShape | frontend/app/lib/promptBuilder.ts:34-36 | a given card number shows as '#', then only zeros, then the trimmed number, with length 1 + max(3, trimmed length); a number of 3 or more characters gets no zeros |
| PromptBuilder.SkillNameSegment | frontend/app/lib/promptBuilder.ts:41-44 | the skill-name segment is exactly 20 characters and starts with the name truncated to 12 |
| PromptBuilder.SkillDescSegment | frontend/app/lib/promptBuilder.ts:42-44 | the skill-description segment is exactly 30 characters and starts with the description truncated to 30 |
| PromptBuilder.FlavorSegment | frontend/app/lib/promptBuilder.ts:56-57 | the flavor segment is exactly 35 characters and starts with the flavor text truncated to 35 |
| PromptBuilder.SkillsBlock | frontend/app/lib/promptBuilder.ts:39-55 | the skill blocks joined, or the blank row when there are none; stated by `SkillsBlockCases` and computed by `BuildSkillsBlock` |
| PromptBuilder.SkillsBlockCases | frontend/app/lib/promptBuilder.ts:39-55 | a skill block appears exactly when its name is not blank, skill 1 before skill 2; with neither skill the section is one blank row |
| PromptBuilder.FlavorBlockCases | frontend/app/lib/promptBuilder.ts:56-58 | a blank flavor text gives the blank row; otherwise the quoted 35-wide segment row followed by the blank row |
| PromptBuilder.StatsAndMetaWidths | frontend/app/lib/promptBuilder.ts:59-62 | the stats line has length max(35, raw length); when the pieces fit, the meta line is 35 wide with the card number in the first 18 columns and the series in the next 17 |
| PromptBuilder.CardDataOf | frontend/app/lib/promptBuilder.ts:64-106 | the structured record of the card; stated by `CardDataFields` and `VisualAndDataSkillsAgree`, and built by `BuildCardData` |
| PromptBuilder.CardDataFields | frontend/app/lib/promptBuilder.ts:64-106 | the layer references fall back to '없음' when falsy; the description is absent exactly when the flavor text is absent or empty, and is the flavor text otherwise; the skills are those with non-blank names, in order, with descriptions defaulting to '' |
| PromptBuilder.VisualAndDataSkillsAgree | frontend/app/lib/promptBuilder.ts:39-106 | there is one visual skill block per record skill, in the same order, built from that skill's name and description |
| PromptBuilder.DataRecordReusesDisplayStrings | frontend/app/lib/promptBuilder.ts:77-117 | the record's header, stats and meta are exactly the strings substituted for the header tokens, the stats line and the meta line; the JSON token gets the serialised record |
| PromptBuilder.Replacements | frontend/app/lib/promptBuilder.ts:108-118 | the table holds the nine tokens in the listed order, none of them empty |
| PromptBuilder.Substitute | frontend/app/lib/promptBuilder.ts:120-123 | each `split(key).join(value)` applied in table order; stated by `SubstituteInOrder` and `SubstituteAbsent`, and computed by `ApplyReplacements` |
| PromptBuilder.SubstituteInOrder | frontend/app/lib/promptBuilder.ts:120-123 | applying a concatenated table means applying the first part, then the second: the replacements take effect in order |
| PromptBuilder.SubstituteAbsent | frontend/app/lib/promptBuilder.ts:120-123 | a template containing none of the tokens comes back unchanged |
| PromptBuilder.TemplateWithoutTokens | frontend/app/lib/promptBuilder.ts:108-125 | the prompt for a template without any of the nine tokens is the template, whatever the fields |
| PromptBuilder.Prompt | frontend/app/lib/promptBuilder.ts:27-126 | the template with the nine replacements applied; stated by `TemplateWithoutTokens`, its table by `Replacements` and `DataRecordReusesDisplayStrings`, and computed by `BuildPrompt` |
| PromptBuilder.BuildPrompt | frontend/app/lib/promptBuilder.ts:27-126 | the imperative `buildPrompt` returns `Prompt(template, input, serialize)`, so equal inputs give identical output |
| PromptBuilder.BuildSkillsBlock | frontend/app/lib/promptBuilder.ts:39-55 | pushing the blocks and joining them, with the blank-row fallback, gives `SkillsBlock` |
| PromptBuilder.BuildCardData | frontend/app/lib/promptBuilder.ts:64-106 | building the record and pushing the skills gives `CardDataOf(input)` |
| PromptBuilder.ApplyReplacements | frontend/app/lib/promptBuilder.ts:120-123 | the `forEach` loop of `split(key).join(value)` computes `Substitute(template, replacements)` |
| Text.ReplaceAllPieces | frontend/app/lib/promptBuilder.ts:122 | the template is its pieces joined by the key, no piece contains the key, and the result is the same pieces joined by the value: every occurrence is replaced |
| CardService.PyPresentIffNotBlank | backend/app/services/card_service.py:24-34 | `v and v.strip()` holds exactly when the value is present and not made only of Python whitespace |
| CardService.ProvidedIffStripped | backend/app/services/card_service.py:24-34 | a required field counts as provided exactly when it is present and its stripped value is not empty |
| CardService.CheckRequired | backend/app/services/card_service.py:24-36 | there is no missing field exactly when all four are provided; otherwise the result is the first missing one in the order cardName, type, attribute, rarity |
| CardService.FirstMissingUnique | backend/app/services/card_service.py:24-34 | only one field can be the first missing one |
| CardService.ValidateCardData | backend/app/services/card_service.py:14-36 | the result is (true, "") exactly when all four fields are provided; otherwise it is (false, message of the first missing field) |
| CardService.MessagesDistinct | backend/app/services/card_service.py:25-34 | the four messages are distinct |
| CardService.MessageIdentifiesField | backend/app/services/card_service.py:24-36 | a failure message names the first missing field |
| CardService.Cut | backend/app/services/card_service.py:76-77 | the cut is a prefix of length min(n, length), with no ellipsis |
| CardService.NameSegment | backend/app/services/card_service.py:76-78 | exactly 20 characters: the name cut to 12, then spaces |
| CardService.DescSegment | backend/app/services/card_service.py:77-79 | exactly 30 characters: the description cut to 30, then spaces |
| CardService.FlavorSegment | backend/app/services/card_service.py:93-94 | exactly 35 characters: the flavor text cut to 35, then spaces |
| CardService.LabelsOf | backend/app/services/card_service.py:60-105 | the layout's labels, each the field or its placeholder when falsy; stated by `LabelFallbacks` |
| CardService.LabelFallbacks | backend/app/services/card_service.py:60-105 | each label is its placeholder exactly when the field is absent or empty (a falsiness test, not `strip()`), so a whitespace-only value is kept; attack and health fall back to '0' |
| CardService.SkillsRowsCases | backend/app/services/card_service.py:75-87 | a skill's three rows appear exactly when its name is not blank, skill 1 first and skill 2 last, 114 characters each; with no skills the section is empty |
| CardService.FlavorRowsCases | backend/app/services/card_service.py:92-95 | the flavor rows appear only for a non-blank flavor text, and hold the 35-wide segment between the quotes |
| CardService.CardDataMatchesLayout | backend/app/services/card_service.py:98-156 | the record's header and stats are the layout's labels (with the '0' fallback) and meta holds only the series; the references fall back to '없음'; the description is absent exactly when the flavor text is falsy; the skills are those that get rows, in order, untruncated |
| CardService.PromptStartsWithTitle | backend/app/services/card_service.py:52-53 | the prompt starts with the fixed title and layout heading |
| CardService.PromptEndsWithStyleGuide | backend/app/services/card_service.py:158-169 | the prompt ends with the fixed style-guide lines, and the serialised record sits right after the layout and the data heading |
| CardService.GeneratedPrompt | backend/app/services/card_service.py:39-170 | the layout, the serialised record and the style guide in that order; stated by `PromptStartsWithTitle` and `PromptEndsWithStyleGuide`, and computed by `GeneratePrompt` |
| CardService.GeneratePrompt | backend/app/services/card_service.py:39-170 | the successive `+=` of `generate_prompt` build exactly `GeneratedPrompt(c, dumps)` |
| CardService.Layout | backend/app/services/card_service.py:52-110 | the text box of the layout from top to bottom; stated by `SkillsRowsCases` and `FlavorRowsCases`, and computed by `WriteLayout` |
| CardService.WriteLayout | backend/app/services/card_service.py:52-110 | the layout steps build exactly `Layout(c)` and return the labels they used |
| CardService.WriteLayoutTop | backend/app/services/card_service.py:52-72 | the title, frame and header steps build `LayoutTop` with the four header labels |
| CardService.WriteLayoutBottom | backend/app/services/card_service.py:97-110 | the stats, meta and closing rows are appended after what came before |
| CardService.AppendSkillRows | backend/app/services/card_service.py:75-87 | the two conditional skill branches append exactly `SkillsRows(c)` |
| CardService.AppendFlavorRows | backend/app/services/card_service.py:91-95 | the conditional flavor branch appends exactly `FlavorRows(c)` |
| CardService.CardDataOf | backend/app/services/card_service.py:115-156 | the structured record the backend serialises; stated by `CardDataMatchesLayout` and computed by `BuildCardData` |
| CardService.BuildCardData | backend/app/services/card_service.py:115-156 | the dictionary and the appended skills give `CardDataOf(c)` |
| PromptAgreement.LabelsAgree | backend/app/services/card_service.py:60-63 | a frontend blank-test fallback and a backend falsy-test fallback give the same label exactly when the value is not whitespace-only |
| PromptAgreement.HeaderLabelsAgree | backend/app/services/card_service.py:60-63 | without whitespace-only header fields, both generators show the same four header labels |
| PromptAgreement.SpaceCardNameDiffers | backend/app/services/card_service.py:62 | for a single-space card name, the frontend shows '카드명' and the backend shows the space |
| PromptAgreement.TruncateAgreesWithCut | backend/app/services/card_service.py:76 | frontend truncation and backend cutting agree exactly when the text fits, or when the characters replaced by "..." already are "..." |
| PromptAgreement.NameSegmentsAgree | backend/app/services/card_service.py:76-78 | the two skill-name segments are equal exactly when the name fits in 12 characters or its characters 10 to 12 are "..." |
| PromptAgreement.DescSegmentsAgree | backend/app/services/card_service.py:77-79 | the same for descriptions, at 30 characters |
| PromptAgreement.FlavorSegmentsAgree | backend/app/services/card_service.py:93-94 | the same for the flavor text, at 35 characters |
| PromptAgreement.PresenceAgrees | backend/app/services/card_service.py:75 | a value counts as given in both generators alike when the two whitespace classes agree on its characters |
| PromptAgreement.ByteOrderMarkDiffers | frontend/app/lib/promptBuilder.ts:40 | a lone U+FEFF is blank to `trim()` but not to `strip()` |
| PromptAgreement.SeparatorDiffers | backend/app/services/card_service.py:75 | a lone U+001C is blank to `strip()` but not to `trim()` |
| PromptAgreement.DataSkillsAgree | backend/app/services/card_service.py:145-156 | the two records' skill lists are equal whenever the generators agree on which names are given |
| PromptAgreement.NoSkillSections | backend/app/services/card_service.py:75-89 | with no skills, the frontend section is one blank row and the backend section is empty |
| PromptAgreement.SkillRowsAgree | backend/app/services/card_service.py:78-80 | a skill's rows are the same text in both generators when the name and description segments agree |
| ImageRef.Collapse | frontend/app/admin/page.tsx:118 | `replace(/\/+/g, '/')` leaves no double slash, keeps the first character, and never lengthens the string |
| ImageRef.CollapseKeepsOthers | frontend/app/admin/page.tsx:136 | collapsing removes only slashes: every other character survives, in order |
| ImageRef.CollapseIdempotent | frontend/app/admin/page.tsx:136 | collapsing twice is the same as collapsing once |
| ImageRef.UploadPath | frontend/app/admin/page.tsx:113-136 | every path the three branches build starts with '/data/upload' |
| ImageRef.PathUrl | frontend/app/admin/page.tsx:113-138 | every path URL starts with 'http://localhost:8000/data/upload' and has no double slash after the host |
| ImageRef.Resolve | frontend/app/admin/page.tsx:97-139 | there is no URL exactly when the reference is absent or empty; 'data:image/', 'http://' and 'https://' references come back unchanged; every other reference maps under the upload base with no double slash after the host |
| ImageRef.ResolveIdempotent | frontend/app/admin/page.tsx:97-139 | resolving a resolved reference gives the same URL |
| ImageRef.UploadAliasResolves | frontend/app/admin/page.tsx:123-127 | '/upload…' and '/data/upload…' resolve to the same URL |
| ImageRef.RootedPathResolves | frontend/app/admin/page.tsx:111-138 | a trimmed reference starting with '/' resolves to the host followed by its collapsed upload path |
| ImageRef.DataUploadPathResolves | frontend/app/admin/page.tsx:113-120 | a trimmed path starting with '/data/upload' resolves to the host followed by that path with its runs of '/' collapsed |
| ImageRef.LegacyPathResolves | frontend/app/admin/page.tsx:123-127 | a trimmed path starting with '/upload' but not '/data/upload' resolves to the host followed by '/data' and the path, collapsed |
| ImageRef.OtherRootedPathResolves | frontend/app/admin/page.tsx:130-138 | any other trimmed path starting with '/' resolves to the host followed by '/data/upload' and the path, collapsed; equivalently, the upload base followed by the collapsed path |
| ImageRef.OtherRootedUploadPath | frontend/app/admin/page.tsx:130-136 | such a path is placed directly below '/data/upload' |
| ImageRef.CollapseBelowUploadDir | frontend/app/admin/page.tsx:136-138 | collapsing a path placed below the upload directory leaves the directory unchanged |
| ImageRef.RelativePathUnderUpload | frontend/app/admin/page.tsx:130-138 | a trimmed relative path not starting with '/' resolves to the upload base, one '/', then the collapsed path |
| ImageRef.DisplayedSource | frontend/app/admin/page.tsx:214-218 | the generated image, else the character image, else the background image; stated by `DisplayedImagePrecedence` |
| ImageRef.DisplayedImagePrecedence | frontend/app/admin/page.tsx:214-218 | the generated image wins over the character image, which wins over the background; empty references fall through; a card without any of the three shows nothing |
| AdminPage.GetImageUrl | frontend/app/admin/page.tsx:97-139 | the step-by-step `getImageUrl` returns `Resolve(url)` |
| AdminPage.Thumbnail | frontend/app/admin/page.tsx:214-218 | a gallery thumbnail is the resolved first truthy image reference |
| AdminCardPage.GetImageUrl | frontend/app/admin/card/page.tsx:66-85 | this page's `getImageUrl` also returns `Resolve(url)`, the same as the gallery's for every input |
| AdminCardPage.Thumbnail | frontend/app/admin/card/page.tsx:170-172 | the same generated, then character, then background precedence |
| AdminCardPage.JsString | frontend/app/admin/card/page.tsx:110 | `String(cardNumber)` is the stored string itself, or 'null' when the card has no number |
| AdminCardPage.PromptInputOf | frontend/app/admin/card/page.tsx:102-119 | the card number is passed through `String`, and each image URL is passed, or '없음' when it is falsy |
| AdminCardPage.CardNumberShown | frontend/app/admin/card/page.tsx:110 | a stored number appears trimmed after '#', zero-padded to 3; a number made only of whitespace gives the '[카드번호]' placeholder; a card without a number shows '#null' |
| AdminCardPage.NumberShown | frontend/app/admin/card/page.tsx:110 | the same three cases for the card number value alone |
| AdminCardPage.WordShown | frontend/app/lib/promptBuilder.ts:34-36 | a number of three or more characters with no whitespace at either end is shown unchanged after '#' |
| AdminCardPage.NullShown | frontend/app/admin/card/page.tsx:110 | the text 'null' is shown as '#null' |
| AdminCardPage.PromptFromCard | frontend/app/admin/card/page.tsx:102-119 | the card page's prompt is `buildPrompt` of `PromptInputOf(card)`; its properties are those of `PromptInputOf`, `CardNumberShown` and `RebuiltRecordKeepsCard` |
| AdminCardPage.RebuiltRecordKeepsCard | frontend/app/admin/card/page.tsx:117-118 | the rebuilt record's layers carry the card's image URLs, or '없음' |
| AdminCardPage.PromptText | frontend/app/admin/card/page.tsx:211-213 | with no card selected the text is ''; otherwise it is the stored prompt whenever one exists (even an empty one), and the rebuilt prompt when none does |
| AdminCardPage.Clipboard.Copy | frontend/app/admin/card/page.tsx:417-421 | the clipboard receives the prompt text only when it is not empty |
| FileUtils.DropTrailingEmpty | backend/app/utils/file_utils.py:32 | what remains of a path after pathlib drops trailing '/' and '.' components is a prefix of it that ends in neither |
| FileUtils.BaseName | backend/app/utils/file_utils.py:32 | `Path(p).name` holds no '/' and is never '.' |
| FileUtils.LastComponentNotDot | backend/app/utils/file_utils.py:32 | once the ignored end is dropped, the last component is not '.' |
| FileUtils.TrailingEmptyIgnored | backend/app/utils/file_utils.py:32 | a trailing '/' or '/.' does not change the name |
| FileUtils.TrailingEmptyKeepsExtension | backend/app/utils/file_utils.py:32 | a trailing '/' or '/.' does not change the extension, so 'a.png/.' has the extension of 'a.png' |
| FileUtils.Suffix | backend/app/utils/file_utils.py:32 | `Path.suffix` is either empty or a dot followed by at least one character with no other dot |
| FileUtils.GetFileExtension | backend/app/utils/file_utils.py:32 | the extension holds no '.' and no '/' and is already lower case |
| FileUtils.ExtensionCases | backend/app/utils/file_utils.py:32 | there is an extension exactly when the last '.' of the name is neither its first nor its last character, and then it is what follows that dot, lower-cased |
| FileUtils.ExtensionOfName | backend/app/utils/file_utils.py:32 | the extension of `stem.e` is `e` lower-cased |
| FileUtils.NoDotNoExtension | backend/app/utils/file_utils.py:32 | a name without a dot has no extension |
| FileUtils.IsAllowedFile | backend/app/utils/file_utils.py:45-46 | the file's extension is one of the allowed extensions; stated by `AllowedHasExtension` and `DefaultAllowedFiles` |
| FileUtils.AllowedHasExtension | backend/app/utils/file_utils.py:45-46 | an allowed file always has a non-empty extension |
| FileUtils.DefaultAllowedFiles | backend/app/utils/file_utils.py:45-46 | with the defaults, a file is allowed exactly when its extension is one of jpg, jpeg, png, gif, webp, svg |
| FileUtils.GenerateUniqueFilename | backend/app/utils/file_utils.py:59-61 | the id, then '.', then the extension when there is one; the bare id otherwise |
| FileUtils.UniqueFilenameKeepsExtension | backend/app/utils/file_utils.py:59-61 | the unique name has the original's extension, so it is allowed exactly when the original is |
| FileUtils.DropFirst | backend/app/utils/file_utils.py:164 | Python's `s[n:]`: the tail from `n`, or empty past the end |
| FileUtils.UrlPath | backend/app/utils/file_utils.py:156-160 | the path `urlparse` finds in an absolute URL; stated by `UrlPathOf` and `AbsoluteUrlPath` |
| FileUtils.StripPrefixAsWritten | backend/app/utils/file_utils.py:163-170 | the prefix stripping as written, dropping 13 characters after a bare '/data/upload'; stated by `StrippingsAgree` and `BareUploadPrefixAsWritten` |
| FileUtils.StripPrefix | backend/app/utils/file_utils.py:163-170 | the prefix stripping with 12 characters dropped after a bare '/data/upload'; stated by `StrippingsAgree` and `BareUploadPrefixKeepsName` |
| FileUtils.RelativeUploadNameAsWritten | backend/app/utils/file_utils.py:151-178 | the name looked up for a reference, as written; computed by `GetFilePathFromUrl` and stated by `NameFromStoredPath` |
| FileUtils.RelativeUploadName | backend/app/utils/file_utils.py:151-178 | the name looked up with the corrected stripping; stated by `NameFromStoredPath` and `StoredUrlRoundTrip` |
| FileUtils.GetFilePathFromUrl | backend/app/utils/file_utils.py:151-178 | the rebinding steps give `RelativeUploadNameAsWritten(url)`: no name for an empty reference or an empty remainder |
| FileUtils.StrippingsAgree | backend/app/utils/file_utils.py:163-170 | the as-written and the corrected stripping differ only for references that start with '/data/upload' but not with '/data/upload/' |
| FileUtils.BareUploadPrefixAsWritten | backend/app/utils/file_utils.py:165-166 | as written, the character after a bare '/data/upload' is lost |
| FileUtils.BareUploadPrefixLosesCharacter | backend/app/utils/file_utils.py:165-166 | '/data/uploadx.png' names '.png' as written, and 'x.png' once corrected |
| FileUtils.BareUploadPrefixKeepsName | backend/app/utils/file_utils.py:165-166 | with the corrected stripping, everything after a bare '/data/upload' is kept |
| FileUtils.AbsoluteUrlPath | backend/app/utils/file_utils.py:156-160 | the path of the absolute URL of a stored file is its '/data/upload/' path |
| FileUtils.UrlPathOf | backend/app/utils/file_utils.py:156-160 | an absolute URL is reduced to its path, without the parameters of its last segment, before any stripping |
| FileUtils.NameFromStoredPath | backend/app/utils/file_utils.py:151-178 | a reference whose path is '/data/upload/' plus a plain name yields that name, both as written and corrected |
| FileUtils.ResolveStoredUrl | frontend/app/admin/page.tsx:113-119 | the frontend resolves the stored path of an upload to the upload base, '/', then the file name |
| FileUtils.StoredUrlRoundTrip | backend/app/utils/file_utils.py:141-178 | the backend finds the file again from the URL the frontend loads for it |
| Config.Kept | backend/app/core/config.py:42 | a piece contributes at most one entry, and that entry is clean |
| Config.Stripped | backend/app/core/config.py:42 | `[p.strip() for p in pieces if p.strip()]` has no more entries than pieces, and no empty or padded entry |
| Config.StrippedAppend | backend/app/core/config.py:42 | filtering keeps the order of the pieces |
| Config.ParseList | backend/app/core/config.py:42 | no entry of a parsed list is empty or padded with whitespace |
| Config.ParseListAppend | backend/app/core/config.py:42 | parsing `a + "," + b` gives the entries of `a` followed by those of `b`: input order is kept |
| Config.ParseListWord | backend/app/core/config.py:42 | a clean comma-free entry parses to itself |
| Config.ParseListJoin | backend/app/core/config.py:42 | clean comma-free entries joined by commas parse back to themselves |
| Config.CorsOriginsList | backend/app/core/config.py:39-42 | no CORS origin is empty or padded |
| Config.AllowedExtensionsList | backend/app/core/config.py:74-77 | every allowed extension is clean and lower case |
| Config.DefaultOrigins | backend/app/core/config.py:34-37 | the default CORS setting parses to exactly 'http://localhost:3000' and 'http://127.0.0.1:3000' |
| Config.DefaultExtensions | backend/app/core/config.py:69-72 | the default extensions parse to jpg, jpeg, png, gif, webp, svg, in that order |
| Config.Sep | backend/app/core/config.py:54 | no separator is written after an empty directory or one ending in '/' |
| Config.JoinPathShape | backend/app/core/config.py:54 | `Path(dir) / name` ends with the name; an absolute name replaces the directory; an empty name leaves the directory; a relative name keeps the directory in front, with at most one '/' added |
| Config.JoinPathAssociative | backend/app/core/config.py:54-60 | `(a / b) / c` and `a / (b / c)` give the same path for every a, b, c |
| Config.DatabaseUrl | backend/app/core/config.py:57-61 | the URL starts with 'sqlite:///' and ends with the database file name |
| Config.DatabaseUrlRelative | backend/app/core/config.py:51-61 | for a relative directory and file name, the URL is 'sqlite:///', the backend root, '/', the directory, '/', the file name |
| Config.DatabaseUrlAbsoluteDir | backend/app/core/config.py:51-61 | an absolute database directory replaces the backend root, so the URL is 'sqlite:///' followed by that directory, '/', the file name |
| Config.DefaultDatabaseUrl | backend/app/core/config.py:57-61 | with the defaults, the URL is 'sqlite:///', the backend root, then '/data/database/cards.db' |
| TypeSelector.Index | frontend/app/components/TypeSelector.tsx:14-15 | a level's position in kingdom-to-species order |
| TypeSelector.Set | frontend/app/components/TypeSelector.tsx:11 | `newType[field] = newValue` changes that level and no other |
| TypeSelector.Changed | frontend/app/components/TypeSelector.tsx:7-21 | the chosen level takes the new value, broader levels keep theirs, narrower levels become '' |
| TypeSelector.HandleChange | frontend/app/components/TypeSelector.tsx:7-21 | the copy-then-clear loop sets the chosen level, keeps the broader ones, clears the narrower ones, and equals `Changed`; the input record, a value, is untouched |
| TypeSelector.ChangeIdempotent | frontend/app/components/TypeSelector.tsx:7-21 | making the same change twice is the same as making it once |
| TypeSelector.BroaderChangeOverrides | frontend/app/components/TypeSelector.tsx:14-18 | a later change at a broader or equal level erases an earlier change at a narrower one |
| TypeSelector.DisplayValue | frontend/app/components/TypeSelector.tsx:23-32 | the label of the selector: the deepest non-empty level, or '타입 선택'; stated by `DisplayDeepest` and `DisplayUnset` |
| TypeSelector.DisplayDeepest | frontend/app/components/TypeSelector.tsx:23-32 | the label shown is the deepest non-empty level |
| TypeSelector.DisplayUnset | frontend/app/components/TypeSelector.tsx:32 | with every level empty, '타입 선택' is shown |
| TypeSelector.ChangeShowsChoice | frontend/app/components/TypeSelector.tsx:7-32 | after choosing a non-empty value, that value is the label shown |
| TypeSelector.ClearKingdomShowsLabel | frontend/app/components/TypeSelector.tsx:7-32 | clearing the kingdom clears the whole selection, and '타입 선택' is shown |
| Wizard.TypeChosenAfterChange | frontend/app/page.tsx:67 | after a choice, the kingdom-or-species condition holds exactly when a non-empty kingdom or species was chosen, or a level below an already chosen kingdom |
| Wizard.Drop | frontend/app/page.tsx:82-105 | an empty character slot takes the image; else an empty background slot takes it; else the character is replaced; the step moves to 'info' exactly when a slot was filled on the image step; the form is unchanged |
| Wizard.Reset | frontend/app/page.tsx:107-110 | both image slots are emptied and nothing else changes |
| Wizard.TwoDropsFillBothSlots | frontend/app/page.tsx:82-105 | two drops into empty slots fill the character slot, then the background slot, complete the image step and end on 'info' |
| Wizard.ResetStartsOver | frontend/app/page.tsx:107-110 | after a reset, the image step is incomplete and the next drop fills the character slot |
| Wizard.Page.constructor | frontend/app/page.tsx:36-62 | the page starts on the image step with no images and the placeholder form |
| Wizard.Page.HandleImageDrop | frontend/app/page.tsx:82-105 | the handler's new state is `Drop` of the old state |
| Wizard.Page.HandleReset | frontend/app/page.tsx:107-110 | the handler's new state is `Reset` of the old state |
| Wizard.Page.RemoveCharacterImage | frontend/app/page.tsx:183 | only the character slot is emptied |
| Wizard.Page.RemoveBackgroundImage | frontend/app/page.tsx:204 | only the background slot is emptied |
| Wizard.Page.SetStep | frontend/app/page.tsx:150 | only the current step changes |
| Wizard.Page.SetFormData | frontend/app/page.tsx:236 | only the form changes |
| Wizard.ImageStepCompleted | frontend/app/page.tsx:64 | both image slots hold a non-empty image; stated by `TwoDropsFillBothSlots`, `ResetStartsOver` and `Page.Steps` |
| Wizard.InfoStepCompleted | frontend/app/page.tsx:65-69 | the name, attribute and rarity differ from their placeholders and a kingdom or a species is chosen; stated by `Page.Steps`, its type condition by `TypeChosenAfterChange` |
| Wizard.Page.Steps | frontend/app/page.tsx:64-69 | the image step is complete exactly when both images are set and non-empty; the info step is complete exactly when the name, attribute and rarity differ from '카드명', '속성' and '[등급 아이콘]' and a kingdom or species is chosen |

## Left out

**Not modelled:**

- Rendering and DOM work is not modelled. This covers JSX, styling, modals, the `onError` image fallback, and the card preview, form, tabs and drop-zone components.
- Network and browser I/O is not modelled: `fetch`, the clipboard beyond "what was written", and downloads. `FileReader` is replaced by the data URL given as a parameter. The 300 ms `setTimeout` before moving to 'info' is taken as immediate.
- The prompt template is a parameter, so its text is not modelled. It is also not known to be free of, or to contain, the tokens.
- `JSON.stringify` and `json.dumps` are parameters over the structured records, so their whitespace and escaping are not modelled.
- The taxonomy data the type selector offers is not modelled; any string can be chosen at any level.
- Persistence is not modelled: `save_card`, `get_all_cards`, the database models and the scripts.
- The routes are not modelled.
- In `get_file_path_from_url`, the filesystem part is not modelled: `upload_path / url`, `resolve()`, the security check and `exists()`. The model returns the name that would be looked up.
- `urlparse` is modelled only for 'http://' and 'https://' URLs: the network location ends at the first '/', '?' or '#'; tab, CR and LF are deleted; the parameters of the last segment are cut at ';'. It raises errors for an unbalanced '[' or ']' in the network location and for a network location that NFKC normalisation would change; Python's `except` turns them into `None`. That path is not modelled.
- `Path.suffix` is modelled as the last-dot rule of Python versions before 3.14, on the last path component that is not '.'. Trailing '/' and '.' components are dropped as pathlib drops them; '..' is kept as a name, as in pathlib. Windows separators and the later change of rule for a trailing dot are not modelled.
- `save_uploaded_file`, `ensure_upload_dir` and `delete_file` are not modelled: they are file I/O.
- `database_path` and `upload_path` depend on `__file__`. The backend root is a parameter of `Config.DatabaseUrl`.
- The frontend declares `cardNumber: number`, but the card list sends the stored string or null. `AdminCardPage.JsString` models the value that arrives, not the declared type.
- The Pydantic defaults and `min_length` checks of the request schemas are not modelled.

**Modelled with restrictions:**

- `Config.JoinPath`: pathlib's normalisation is not modelled. `str(Path(...))` drops '.' components and collapses repeated and trailing '/'; the model joins the strings as given, so `Config.DatabaseUrl` agrees with the source only for parts already in that normal form, as `Config.DatabaseUrlRelative` requires.
- Lower-casing covers only ASCII letters. Python's `str.lower()` also maps non-ASCII letters, so an extension with such letters is outside the model.
- `Wizard.Page.Steps`: the info flag is stated over the form already held. How `CardForm` edits the form is not modelled; any form can be set with `SetFormData`.

## Findings

| source | as written | input that shows it | evidently intended | confidence | as-written member | corrected member |
|---|---|---|---|---|---|---|
| backend/app/utils/file_utils.py:165-166 | a reference starting with '/data/upload' but not '/data/upload/' has 13 characters dropped, one more than the 12-character prefix | '/data/uploadx.png' names '.png' | drop the 12 characters of '/data/upload', naming 'x.png' (the comment says the prefix '/data/upload' is removed) | not executed | FileUtils.BareUploadPrefixLosesCharacter | FileUtils.BareUploadPrefixKeepsName |
