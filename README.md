# Atomic design components and the Echo Chat page, in Dafny

This project models the decision logic of a small Flet demo built on the
"atomic design" pattern. The logic falls into four parts.

- **Atoms.** Two `Button` atoms, a plain one and one built on design tokens, and an `Input` atom. Each picks a
  *variant* record and a *size* record from a fixed table. Any string is accepted. A string that names no entry
  falls back silently to the atom's default: `"primary"`/`"medium"` for buttons, `"default"`/`"medium"` for the
  input. The atom then builds a control tree from the two records.
- **Molecule.** `InputWithButton` always places an outlined input before a primary send button in a row. The
  input's submit gesture goes to the caller's `on_submit`, and the button's click goes to the caller's `on_send`.
- **Echo Chat page.** `send_message` ignores a blank field. Otherwise it appends the user's bubble and then the
  echo bubble to the chat list, clears the field and refreshes the page. `MessageBubble` is the component that
  those inline bubbles duplicate.
- **Design tokens.** These are the spacing grid, the typography scale and the border radii and widths. The
  token-based button reads its sizes from them.

Modules follow the source files. `Widgets` holds the vocabulary of Flet controls as an immutable `Node` tree.
Colours, icons and event handlers in it are opaque identifiers. `StyleKeys` holds the dictionary keys. Each
lookup is a parse from string to `Option<key>` plus a table `match`, with an explicit "unknown → default"
branch. `PyText` holds Python's `str.strip()` together with the `str.isspace()` character set. `Orders` is a
helper for the ordering facts about the token scales. `ButtonAtom`, `TokenButton`, `InputAtom`, `Molecules`,
`MessageBubbles`, `Spacing`, `Typography` and `Borders` model one source file each. `EchoChat` models
`src/main.py`, and its class `ChatPage` holds the state that `send_message` changes in place:
`chat_list.controls`, `message_input.value` and the count of `page.update()` calls.

Three points about the code shape the model:

- The chat stores the **raw** field value, as `"You: " + value` and `"Echo: " + value`. `strip()`
  (src/main.py:16) only decides whether the send happens.
- There is no component-kind error: each atom is its own function.
- The plain Button's variant records have a `"color"` entry, but `src/components/atoms/button.py` never uses it.
  Its label and icon carry no colour. The model resolves the record as written and builds the label without a
  colour. The token-based Button does use it for both the icon and the label.

## Model

| member | source | states |
|---|---|---|
| `StyleKeys.ParseButtonVariant` | src/components/atoms/button.py:21-42 | A button variant string finds an entry exactly when it is one of the four keys, and then it finds that key's own entry. |
| `StyleKeys.ParseInputVariant` | src/components/atoms/input.py:20-33 | An input variant string finds an entry exactly when it is "default", "outlined" or "filled". |
| `StyleKeys.ParseSize` | src/components/atoms/input.py:36-40 | A size string finds an entry exactly when it is "small", "medium" or "large". |
| `StyleKeys.ButtonVariantKeysRoundTrip` | src/components/atoms/button_with_tokens.py:15-36 | Every variant key looks up its own entry; no two entries share a key. |
| `StyleKeys.InputVariantKeysRoundTrip` | src/components/atoms/input.py:20-33 | Every input variant key looks up its own entry. |
| `StyleKeys.SizeKeysRoundTrip` | src/components/atoms/button.py:45-49 | Every size key looks up its own entry. |
| `ButtonAtom.VariantStyles` | src/components/atoms/button.py:21-42 | The table: primary BLUE/WHITE, secondary GREY_300/BLACK, danger RED/WHITE, ghost TRANSPARENT/BLUE (background/`color`). Every entry's `color` differs from its background, and only ghost has a border, `border.all(1, BLUE)` in that `color`. The button never applies `color` to its label or icon. |
| `ButtonAtom.SizeStyles` | src/components/atoms/button.py:44-49 | The table: heights 32/40/48 with horizontal padding 12/16/20. Every entry has no vertical padding and a horizontal padding under half its height. |
| `ButtonAtom.ResolveVariant` | src/components/atoms/button.py:51 | A known variant yields its own table entry; any other string yields the "primary" entry. |
| `ButtonAtom.ResolveSize` | src/components/atoms/button.py:52 | A known size yields its own entry; any other string yields the "medium" entry. |
| `ButtonAtom.Label` | src/components/atoms/button.py:58 | The label is a Text of the given text in weight W_500, with no size and no colour of its own. |
| `ButtonAtom.RowContent` | src/components/atoms/button.py:55-58 | The row holds two controls with an icon and one without; the label is last and the icon of size 16 first. |
| `ButtonAtom.Button` | src/components/atoms/button.py:60-73 | The container takes its background and border from the resolved variant and its height and padding from the resolved size. It has radius 6 and ink, and it passes `on_click` through unchanged. |
| `ButtonAtom.ButtonRowContent` | src/components/atoms/button.py:55-58 | The label, in weight W_500, is the only text and the last control; anything before it is the given icon. |
| `ButtonAtom.UnknownVariantIsPrimary` | src/components/atoms/button.py:22-26 | An unknown variant gives the same button as "primary": blue background, no border. The record's `color` entry, which this button never applies, is WHITE. |
| `ButtonAtom.UnknownSizeIsMedium` | src/components/atoms/button.py:47 | An unknown size gives the same button as "medium": height 40, horizontal padding 16. |
| `ButtonAtom.FallbacksIndependent` | src/components/atoms/button.py:51-52 | Colours and border depend only on the variant; height and padding depend only on the size. |
| `ButtonAtom.SizeHeights` | src/components/atoms/button.py:14-17 | Heights are 32/40/48 for small/medium/large, and the horizontal padding also grows with the size. |
| `ButtonAtom.SecondaryAndDanger` | src/components/atoms/button.py:27-36 | "secondary" resolves to GREY_300/BLACK and "danger" to RED/WHITE, both without a border. |
| `ButtonAtom.OnlyGhostHasBorder` | src/components/atoms/button.py:37-41 | A border is drawn exactly for "ghost", and it is 1 wide and blue. The whole ghost entry is a TRANSPARENT background, `color` BLUE and that border. |
| `TokenButton.VariantStyles` | src/components/atoms/button_with_tokens.py:15-36 | The table: primary PRIMARY/TEXT_INVERSE, secondary SECONDARY_LIGHT/TEXT_PRIMARY, danger DANGER/TEXT_INVERSE, ghost WHITE/PRIMARY. No label uses its background token, and only ghost has a border, `Borders.WIDTH_THIN` wide in its label colour. |
| `TokenButton.SizeStyles` | src/components/atoms/button_with_tokens.py:38-64 | The table: heights 32/40/48, padding SM×XS, MD×SM, LG×MD, text CAPTION/BUTTON/BODY sizes. Both paddings are multiples of `BASE_UNIT`, the horizontal one is the larger, and every text size is on the typography scale. |
| `TokenButton.ResolveVariant` | src/components/atoms/button_with_tokens.py:66 | A known variant yields its own token entry; any other string yields the "primary" entry. |
| `TokenButton.ResolveSize` | src/components/atoms/button_with_tokens.py:67 | A known size yields its own entry; any other string yields the "medium" entry. |
| `TokenButton.RowContent` | src/components/atoms/button_with_tokens.py:69-80 | The label is last, with the BUTTON weight, the size's text size and the variant colour; an icon, if given, is first, in the same colour. |
| `TokenButton.Button` | src/components/atoms/button_with_tokens.py:82-95 | The container takes background and border from the variant and height and padding from the size. Its row spacing is `Spacing.SM`, its radius is `Borders.RADIUS_BUTTON`, and it passes `on_click` through. |
| `TokenButton.UnknownVariantIsPrimary` | src/components/atoms/button_with_tokens.py:16-20 | An unknown variant gives the "primary" button: `Colors.TEXT_INVERSE` text and icon on a `Colors.PRIMARY` background, no border. |
| `TokenButton.UnknownSizeIsMedium` | src/components/atoms/button_with_tokens.py:48-55 | An unknown size gives the "medium" button: height 40, padding 16 by 8, text size 14. |
| `TokenButton.SizesGrow` | src/components/atoms/button_with_tokens.py:39-64 | From small to large, height goes 32/40/48, horizontal padding 8/16/24, vertical padding 4/8/16 and text size 12/14/16. All four strictly increase. |
| `TokenButton.IconSharesLabelColor` | src/components/atoms/button_with_tokens.py:71-79 | With an icon, the icon and the label both have the variant's foreground colour. |
| `TokenButton.SecondaryAndDanger` | src/components/atoms/button_with_tokens.py:21-30 | "secondary" resolves to SECONDARY_LIGHT/TEXT_PRIMARY and "danger" to DANGER/TEXT_INVERSE, both without a border. |
| `TokenButton.OnlyGhostHasBorder` | src/components/atoms/button_with_tokens.py:31-35 | A border is drawn exactly for "ghost": `Borders.WIDTH_THIN` (1) wide in `Colors.PRIMARY`. The whole ghost entry is a `Colors.WHITE` background, `Colors.PRIMARY` text and that border. |
| `TokenButton.ConstantRadiusAndWeight` | src/components/atoms/button_with_tokens.py:76-90 | Whatever the variant and size, the radius is 6 and the label weight is `Typography.BUTTON`'s (W_500). |
| `InputAtom.VariantStyles` | src/components/atoms/input.py:20-33 | The table: default UNDERLINE, outlined OUTLINE, both TRANSPARENT; filled NONE on GREY_100. A field has no border line exactly when it has a background fill, and only "outlined" draws an outline. |
| `InputAtom.SizeStyles` | src/components/atoms/input.py:35-40 | The table: heights 32/40/48 with text sizes 12/14/16; every height is more than twice its text size. |
| `InputAtom.ResolveVariant` | src/components/atoms/input.py:42 | A known variant yields its own entry; any other string yields the "default" entry. |
| `InputAtom.ResolveSize` | src/components/atoms/input.py:43 | A known size yields its own entry; any other string yields the "medium" entry. |
| `InputAtom.Input` | src/components/atoms/input.py:45-54 | The placeholder becomes the hint text. Border and background come from the variant, and height and text size from the size. Radius is 6, and both handlers pass through unchanged. |
| `InputAtom.UnknownVariantIsDefault` | src/components/atoms/input.py:21-24 | An unknown variant gives the "default" field: underline border, transparent background. |
| `InputAtom.UnknownSizeIsMedium` | src/components/atoms/input.py:38 | An unknown size gives the "medium" field: height 40, text size 14. |
| `InputAtom.SizesGrow` | src/components/atoms/input.py:36-40 | Heights 32 < 40 < 48 and text sizes 12 < 14 < 16 from small to large. |
| `InputAtom.OnlyFilledHasBackground` | src/components/atoms/input.py:29-32 | The background is non-transparent exactly for "filled", which uses GREY_100 and no border. |
| `Molecules.InputWithButton` | src/components/molecules/input_with_button.py:25-28 | The result is a row of exactly two controls with spacing 8: an expanding container around a text field, then a clickable button container. |
| `Molecules.InputIsOutlinedMedium` | src/components/molecules/input_with_button.py:12-16 | The field is the Input atom with variant "outlined", the default size (height 40, text 14), the placeholder and no change handler. |
| `Molecules.ButtonIsPrimarySend` | src/components/molecules/input_with_button.py:18-23 | The button is the medium "primary" Button: blue, with the SEND icon before the `button_text` label. |
| `Molecules.HandlersNotSwapped` | src/components/molecules/input_with_button.py:15-22 | A submit gesture can reach only `on_submit`, and only through the input. A click can reach only `on_send`, and only through the button. |
| `MessageBubbles.MessageBubble` | src/components/message_bubble.py:4-11 | The text is `sender + ": " + message` in white, with padding 10 and radius 10. The bubble is blue and right-aligned exactly when `is_user`, grey and left-aligned otherwise. |
| `MessageBubbles.DefaultsAreUser` | src/components/message_bubble.py:4 | With only a message, the bubble is the user's: sender "You", `is_user` true. |
| `PyText.LStrip` | src/main.py:16 | The result is a suffix of the input, everything removed is whitespace, and it does not start with whitespace. |
| `PyText.RStrip` | src/main.py:16 | The result is a prefix of the input, everything removed is whitespace, and it does not end with whitespace. |
| `PyText.Strip` | src/main.py:16 | `strip()` is the slice of the value between a blank prefix and a blank suffix. It is empty exactly when the value is empty or all whitespace; otherwise both of its ends are non-whitespace. |
| `PyText.BlankEnds` | src/main.py:16 | Removing a blank prefix that stops at a non-space and then a blank suffix that stops at a non-space leaves the slice of the value between them. That slice is empty exactly when the value is blank, and otherwise both of its ends are non-whitespace. |
| `PyText.LStripEmptyIffBlank` | src/main.py:16 | Left-stripping leaves nothing exactly when the value is all whitespace. |
| `PyText.RStripKeepsHead` | src/main.py:16 | Right-stripping a value that starts with a non-space keeps that character, so the value does not become empty. |
| `EchoChat.UserEntry` | src/main.py:18-26 | The inline user bubble equals `MessageBubble(value, "You", True)`. |
| `EchoChat.EchoEntry` | src/main.py:29-37 | The inline echo bubble equals `MessageBubble(value, "Echo", False)`. |
| `EchoChat.Transcript` | src/main.py:18-37 | The chat list left by a history of sends holds two entries per send. |
| `EchoChat.TranscriptAt` | src/main.py:18-37 | Entries 2k and 2k+1 are the user bubble and then the echo bubble of the k-th value sent. |
| `EchoChat.TranscriptSnoc` | src/main.py:18-37 | One more send appends the user bubble and then the echo bubble after the existing entries. |
| `EchoChat.TranscriptAppend` | src/main.py:18-37 | Entries of later sends are appended after those of earlier ones; nothing earlier is changed or reordered. |
| `EchoChat.SendsOnlyGrow` | src/main.py:18-37 | n further sends grow the list by exactly 2n. The old list stays as the prefix, and the new entries are the suffix. |
| `EchoChat.TwoSendsInOrder` | src/main.py:18-37 | Sending "a" and then "b" gives You: a, Echo: a, You: b, Echo: b, in that order. |
| `EchoChat.ChatPage.constructor` | src/main.py:8-13 | The page starts with an empty chat list, an empty field and no refresh. |
| `EchoChat.ChatPage.Edit` | src/main.py:9-13 | Typing into the message field sets its value and keeps the page invariant: the chat list is still the transcript of the messages sent. |
| `EchoChat.ChatPage.SendMessage` | src/main.py:15-40 | A blank value changes nothing and requests no refresh. Otherwise the user bubble and then the echo bubble of the raw value are appended, the field becomes "", one refresh is requested, and earlier entries stay unchanged. |
| `EchoChat.ChatPage.Dispatch` | src/main.py:9-53 | The field's submit gesture and the send button have the same effect, that of `send_message`. |
| `Spacing.ScaleOnGrid` | src/design_tokens/spacing.py:7-23 | Every `SPACE_n` is `BASE_UNIT * n` with `BASE_UNIT` 4, so every scale value is a non-negative multiple of 4. |
| `Spacing.ScaleIncreasing` | src/design_tokens/spacing.py:10-23 | The scale strictly increases from `SPACE_0` to `SPACE_32`. |
| `Spacing.SemanticOrder` | src/design_tokens/spacing.py:28-32 | XS 4 < SM 8 < MD 16 < LG 24 < XL 32. |
| `Spacing.LayoutOrder` | src/design_tokens/spacing.py:35-36 | XL < SECTION (48) < PAGE (64). |
| `Spacing.ComponentAliases` | src/design_tokens/spacing.py:39-46 | Button padding is MD by SM. Input padding X is 12, strictly between SM and MD. Card and modal padding are LG and XL. |
| `Typography.FontSizesIncreasing` | src/design_tokens/typography.py:9-17 | Font sizes strictly increase from XS (12) to 5XL (48). |
| `Typography.WeightsIncreasing` | src/design_tokens/typography.py:25-29 | Weights increase from LIGHT through NORMAL, MEDIUM and SEMIBOLD to BOLD. |
| `Typography.HeadingScale` | src/design_tokens/typography.py:34-56 | Heading sizes decrease: H1 48 > H2 36 > H3 30 > H4 24. H1 and H2 are bold; H3 and H4 are semibold. |
| `Typography.BodyWeights` | src/design_tokens/typography.py:59-88 | BODY_LARGE, BODY, BODY_SMALL and CAPTION use the normal weight. |
| `Typography.UiTextShared` | src/design_tokens/typography.py:71-93 | BUTTON, LABEL and BODY_SMALL have size 14; BUTTON and LABEL have the medium weight. |
| `Typography.CaptionSmallest` | src/design_tokens/typography.py:84-88 | CAPTION's 12 is the smallest size of every style and of the scale. |
| `Borders.RadiiIncreasing` | src/design_tokens/borders.py:7-14 | Radii strictly increase: 0 < 2 < 4 < 6 < 8 < 12 < 16 < 9999. |
| `Borders.WidthsIncreasing` | src/design_tokens/borders.py:17-21 | Border widths strictly increase: 0 < 1 < 2 < 4 < 8. |
| `Borders.RadiusAliases` | src/design_tokens/borders.py:26-30 | `RADIUS_BUTTON` = `RADIUS_MD` = 6 and `RADIUS_INPUT` = `RADIUS_BASE` = 4. `RADIUS_PILL` = `RADIUS_FULL` is the largest radius. |
| `Borders.WidthAliases` | src/design_tokens/borders.py:33-35 | `WIDTH_FOCUS` = `WIDTH_THICK` = 2 > `WIDTH_THIN` = 1. |

## Left out

- Rendering, layout and event dispatch are left to Flet. This covers `expand`, alignment semantics, `ink` and the
  window. Handlers are identifiers that are only passed through. `page.update()` is modelled only as a counter of
  refresh requests.
- The entry point `ft.app(main)`, the page title and background, the `ListView` settings (spacing 10, padding 20),
  the 700-wide centred column and the hint text of the page's field are static layout. They are not modelled.
- `src/design_tokens_demo.py` and `src/atomic_example.py` are static showcases with no decisions.
- `src/components/chat_input.py` and `src/components/chat_container.py` are fixed wrappers without branches or
  state. `ChatInput` mirrors the row of field and send button in `src/main.py`.
- `src/design_tokens/shadows.py` holds CSS strings that nothing reads.
- The colour values of `design_tokens.colors` are not part of this model. Token colours are names only, and no
  claim is made that two different token names are different colours.
- Line heights are kept in hundredths (125, 150, 175) rather than as floats.
- Python truthiness of `icon`: only an absent icon (`None`) is modelled. A falsy icon value such as `""` is not.
- `message_input.value` is taken to be a string. Flet yields `""` for an unset field. A `None` value, on which
  `strip()` would raise, is not modelled.
- EchoChat.ChatPage.SendMessage: the class invariant records the sent values but not that each one was
  non-blank. That fact is stated only per call, in the method's own postcondition.
