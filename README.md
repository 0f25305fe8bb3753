# Base Forge token form — a Dafny model

Base Forge is a single-page demo for "deploying" an ERC-20 token on Base. The user fills in a
token configuration: name, symbol, supply, decimals and three feature flags. A live preview card
and a pseudo-Solidity snippet follow every edit. Pressing *Deploy Token* simulates a deployment:
after a 3-second wait a random `0x…` address is shown in a confirmation modal. Nothing reaches a
chain.

This project models the three pieces of logic behind that page:

- `config.dfy`, module `Config`: the `TokenConfig` record, its defaults and field-wise access.
- `token_form.dfy`, module `TokenForm`: the form. It covers
  - the field-scoped `updateConfig`;
  - the symbol normaliser (upper-case, at most 8 characters) and the supply normaliser (digits only);
  - the decimals select and the feature toggles;
  - `isValid` and the deploy button's enabled state.
- `preview.dfy`, module `Preview`: the derived preview. It covers
  - the icon initial and the name and symbol fallbacks;
  - the feature badges;
  - the snippet's contract name (whitespace removed, `MyToken` fallback) and its inheritance list.
- `app.dfy`, module `App`: the application root. It holds
  - the fake address builder and its inverse;
  - a class `AppState` with the root's state cells (`config`, `isDeploying`, `deployedAddress`,
    `showDeployed`) and the deploy, completion and close transitions.
- `text.dfy`, module `Text`: the character classes and the two string transforms used above.
  These are ASCII upper-casing and "remove every character of a class", the
  `replace(/[…]/g, '')` idiom.

The deploy handler is asynchronous. Its code before the `await` is `AppState.HandleDeploy`, and
its code after the `await` is `AppState.CompleteDeploy`. The field `pending` counts handler calls
that are suspended at the wait. The random source is a parameter of `CompleteDeploy`: 40 draws,
each in `[0, 16)`, one per address character.

Four behaviours of the code worth noting:

- The modal's token name is read from the current `config.name` whenever it renders. It is not a
  snapshot taken at deploy time, so renaming the token while the modal is open changes the name
  shown. `AppState.ModalView` and `ExampleDeployment` state this.
- Closing the modal only clears `showDeployed`. The last address stays in `deployedAddress`.
- `handleDeploy` has no in-flight check. A second deploy is prevented only because the button is
  disabled while `isDeploying` holds. `HandleDeploy` alone would suspend a second call; the
  button-level `PressDeploy` does nothing while deploying.
- The symbol is only upper-cased and cut to 8 characters. Digits, punctuation and other
  non-letters pass through; nothing restricts it to letters.

## Model

| member | source | states |
|---|---|---|
| `Text.UpperChar` | src/components/TokenForm.tsx:48 | upper-casing one character never yields a lower-case ASCII letter; it shifts `a`–`z` by 32 and leaves every other character alone |
| `Text.ToUpper` | src/components/TokenForm.tsx:48 | `toUpperCase` keeps the length and maps every character through `UpperChar` |
| `Text.IsWhitespace` | src/components/Preview.tsx:114 | the `\s` class: on ASCII it is exactly TAB, LF, VT, FF, CR and space; no letter or digit is whitespace |
| `Text.RemoveAll` | src/components/TokenForm.tsx:79 | `replace(/cls/g, '')` is no longer than its input and keeps no character of the class |
| `Text.RemoveAllCounts` | src/components/TokenForm.tsx:79 | every character outside the class survives as many times as it occurs; characters of the class occur zero times |
| `Text.RemoveAllIsSubsequence` | src/components/TokenForm.tsx:79 | the surviving characters keep their relative order: the result is a subsequence of the input |
| `Text.RemoveAllFixedPoint` | src/components/TokenForm.tsx:79 | the filter leaves a string unchanged iff none of its characters is in the class |
| `Text.RemoveAllIdempotent` | src/components/TokenForm.tsx:79 | filtering twice equals filtering once |
| `Text.RemoveAllEmpty` | src/components/Preview.tsx:114 | the result is empty iff every character of the input is in the class |
| `Config.FieldsDetermineConfig` | src/App.tsx:7-15 | a configuration is exactly its seven fields: two that agree on every field are equal |
| `Config.FeatureField` | src/components/TokenForm.tsx:96-113 | each feature toggle writes a boolean field |
| `Config.FeatureFieldInjective` | src/components/TokenForm.tsx:96-113 | the three toggles write three distinct fields |
| `Config.FlagOf` | src/components/TokenForm.tsx:99-111 | the value a toggle shows as `checked` is the boolean stored in its field |
| `TokenForm.Update` | src/components/TokenForm.tsx:12-14 | `updateConfig(k, v)` gives a configuration where field k reads v and every other field is unchanged |
| `TokenForm.UpdateSameValue` | src/components/TokenForm.tsx:12-14 | writing a field's current value back gives the same configuration |
| `TokenForm.UpdateOverwrites` | src/components/TokenForm.tsx:12-14 | of two writes to the same field only the last one matters |
| `TokenForm.NormalizeSymbol` | src/components/TokenForm.tsx:48 | the stored symbol has length `min(len, 8)`; character i is the upper-cased input character i; it has no lower-case ASCII letter; it is empty iff the input is |
| `TokenForm.NormalizeSymbolFixedPoint` | src/components/TokenForm.tsx:48 | the normaliser leaves a symbol unchanged iff it has at most 8 characters and no lower-case ASCII letter |
| `TokenForm.NormalizeSymbolIdempotent` | src/components/TokenForm.tsx:48 | normalising the symbol twice equals normalising once |
| `TokenForm.NormalizeSupply` | src/components/TokenForm.tsx:79 | the stored supply holds only `0`–`9`; it is no longer than the input; it is a subsequence of the input; it is empty iff the input has no digit |
| `TokenForm.NormalizeSupplyKeepsDigits` | src/components/TokenForm.tsx:79 | each digit of the input occurs in the result as often as in the input; no other character occurs |
| `TokenForm.NormalizeSupplyFixedPoint` | src/components/TokenForm.tsx:79 | the filter leaves a supply unchanged iff it is all digits |
| `TokenForm.NormalizeSupplyIdempotent` | src/components/TokenForm.tsx:79 | filtering the supply twice equals filtering once |
| `TokenForm.DecimalsValue` | src/components/TokenForm.tsx:59-65 | the decimals the select produces are always one of 18, 8, 6, 0 |
| `TokenForm.DecimalsOptionsExact` | src/components/TokenForm.tsx:62-65 | each of 18, 8, 6, 0 is offered by some entry, and distinct entries give distinct values |
| `TokenForm.IsValid` | src/components/TokenForm.tsx:16 | `isValid` holds iff every required field (name, symbol, supply) is a non-empty string, which is exactly when the early return at src/App.tsx:34 is not taken |
| `TokenForm.DeployEnabled` | src/components/TokenForm.tsx:120 | the button is enabled iff nothing is deploying and every required field is non-empty; it is disabled while deploying and whenever the configuration is not valid |
| `TokenForm.Apply` | src/components/TokenForm.tsx:30-112 | each input's change handler writes only its own field: the name as typed, the normalised symbol, the selected decimals, the filtered supply, or the negated flag |
| `TokenForm.ToggleTwice` | src/components/TokenForm.tsx:181 | clicking a feature toggle twice restores the configuration |
| `TokenForm.EditValidity` | src/components/TokenForm.tsx:16 | after one edit, `isValid` holds iff name, symbol and supply are non-empty: a typed symbol is non-empty iff something was typed, a typed supply iff it contained a digit; select and toggles never change validity |
| `TokenForm.DefaultConfigInvariant` | src/App.tsx:17-25 | the default configuration (empty name and symbol, supply `1000000`, decimals 18, flags off) satisfies the form invariant and is not deploy-eligible |
| `TokenForm.ApplyPreservesInvariant` | src/components/TokenForm.tsx:48-79 | every edit keeps the symbol normal, the supply all digits and the decimals among the four choices |
| `TokenForm.ApplyAllPreservesInvariant` | src/components/TokenForm.tsx:48-79 | any session of edits from an in-form configuration stays in form |
| `TokenForm.ApplyAllKeepsUntouchedField` | src/components/TokenForm.tsx:12-14 | a field that no edit of a session targets keeps its value |
| `TokenForm.SymbolExample` | src/components/TokenForm.tsx:48 | typing `test` stores the symbol `TEST` |
| `TokenForm.SupplyExample` | src/components/TokenForm.tsx:79 | typing `abc123000` stores the supply `123000` |
| `TokenForm.ExampleSession` | src/components/TokenForm.tsx:16 | from any configuration, typing name `Test Coin`, symbol `test`, supply `abc123000` and picking 18 decimals gives a deploy-eligible configuration holding `TEST` and `123000` |
| `Preview.Features` | src/components/Preview.tsx:9-13 | there are exactly three badges, Burn, Mint and Pause in that order, each active iff its flag is set |
| `Preview.ToggleFlipsOneBadge` | src/components/Preview.tsx:9-13 | toggling a feature flips that badge's state and leaves the other two as they were |
| `Preview.IconInitial` | src/components/Preview.tsx:41 | the icon shows the symbol's first character, or `?` when the symbol is empty |
| `Preview.IconInitialAfterSymbolInput` | src/components/Preview.tsx:41 | after a non-empty symbol is typed, the icon shows its first character upper-cased, never a lower-case ASCII letter |
| `Preview.DisplayName` | src/components/Preview.tsx:50 | the card heading is never empty: the name, or `Token Name` when the name is empty |
| `Preview.DisplaySymbol` | src/components/Preview.tsx:53 | the ticker is never empty: the symbol, or `SYMBOL` when the symbol is empty |
| `Preview.ContractName` | src/components/Preview.tsx:114 | the contract name is non-empty and contains no `\s` character; it is a subsequence of the name or `MyToken`; it is `MyToken` for an all-whitespace or empty name; a name without whitespace is used as is |
| `Preview.ContractNameKeepsCharacters` | src/components/Preview.tsx:114 | when the name has a non-whitespace character, the contract name is the name with whitespace removed, and every other character survives as often as it occurs |
| `Preview.BaseContracts` | src/components/Preview.tsx:115 | the inheritance list is `ERC20`, then `, ERC20Burnable` when burnable, then `, Pausable` when pausable; its length is 5, plus 15 for burnable, plus 10 for pausable |
| `Preview.BaseContractsExact` | src/components/Preview.tsx:115 | the inheritance list starts with `ERC20`; two configurations give the same list iff they agree on burnable and pausable, so mintable never affects it |
| `Preview.SupplyText` | src/components/Preview.tsx:61 | the `'0'` branch is taken iff the supply is empty; otherwise the line carries the supply string, which the page formats |
| `Preview.RenderCard` | src/components/Preview.tsx:37-86 | the icon is `IconInitial`, the heading is the name or `Token Name`, the ticker is the symbol or `SYMBOL`, and the supply line is the supply, or `0` while it is empty; the decimals are shown unchanged; the badges are the three `features` following the flags |
| `Preview.RenderSnippet` | src/components/Preview.tsx:113-117 | the contract name is the name with every `\s` character removed, or `MyToken` when nothing is left, and never contains whitespace; the inheritance list is `ERC20`, then `, ERC20Burnable` if burnable, then `, Pausable` if pausable; the supply and decimals comments follow the configuration |
| `Preview.CardAndSnippetAgree` | src/components/Preview.tsx:60-117 | the card and the snippet both show the decimals unchanged and the same supply line; the card's badges are the `features` list, Burn, Mint and Pause each active iff its flag is set |
| `Preview.PreviewOfFormConfig` | src/components/Preview.tsx:41-66 | for a configuration the form produced, the card shows one of the four decimals, an all-digit supply and a symbol of at most 8 characters (or the fallback) |
| `App.HexString` | src/App.tsx:39-41 | joining the draws gives one character per draw: character i is the alphabet entry at draw i |
| `App.FakeAddress` | src/App.tsx:39-41 | the address is `0x` followed by 40 characters of `0123456789abcdef`, 42 in all, with character 2+i the alphabet entry at draw i |
| `App.HexValue` | src/App.tsx:40 | each alphabet character has a position whose entry is that character |
| `App.AddressNibbles` | src/App.tsx:39-41 | 40 draws in `[0, 16)` can be read back from a well-formed address |
| `App.FakeAddressRoundTrip` | src/App.tsx:39-41 | reading the draws back from a built address gives exactly the draws, so distinct draws give distinct addresses |
| `App.FakeAddressOnto` | src/App.tsx:39-41 | every well-formed address is built from the draws read back from it |
| `App.AppState.constructor` | src/App.tsx:28-31 | the page starts with the default configuration, not deploying, no address, modal closed |
| `App.AppState.Edit` | src/App.tsx:28 | a form edit replaces the configuration by `Apply` of it; the deploy cells are untouched, and the state invariant is kept |
| `App.AppState.HandleDeploy` | src/App.tsx:33-38 | with an empty name, symbol or supply nothing changes; otherwise `isDeploying` is set and one more call is suspended; the configuration, the address and the modal are untouched |
| `App.AppState.PressDeploy` | src/components/TokenForm.tsx:118-120 | the button acts iff the configuration is valid and nothing is deploying; pressing it while deploying changes nothing; the state invariant is kept |
| `App.AppState.CompleteDeploy` | src/App.tsx:39-44 | on resumption the address built from the draws is stored, `isDeploying` is cleared and the modal is shown; the configuration is untouched |
| `App.AppState.Close` | src/App.tsx:163 | closing clears `showDeployed` only; configuration, address and deploy state are unchanged |
| `App.AppState.ModalView` | src/App.tsx:158-164 | the modal is present iff `showDeployed`, showing the stored address and the current `config.name` |
| `App.FillExampleForm` | src/components/TokenForm.tsx:33-80 | a sample form session, run through the root's state, leaves a valid configuration named `Test Coin` with symbol `TEST` and supply `123000` |
| `App.ExampleDeployment` | src/App.tsx:33-45 | a sample session: after deploy and completion the modal shows the built address and `Test Coin`; renaming shows the new name; closing hides the modal |

## Left out

- src/components/DeployedModal.tsx is not part of this model. It covers copying to the clipboard,
  the 2-second "copied" timer, the confetti and the explorer link.
- The 3000 ms wait is not modelled as time. It is the split between `HandleDeploy` and
  `CompleteDeploy`. React's batching of state updates and the interleaving of renders are not
  modelled.
- `Math.floor(Math.random() * 16)` is not modelled. The 40 draws are a parameter.
- `Preview.SupplyText`: carries the supply string in place of `Number(supply).toLocaleString()`,
  which is float and locale formatting. The page shows a non-empty supply grouped
  (`1,000,000`), and shows `0` also for a supply of `0` or `000`.
- `Preview.IconInitial`: takes the first Unicode scalar value of the symbol. `charAt(0)` returns
  one UTF-16 code unit, so for a symbol starting with a character outside the Basic Multilingual
  Plane the page shows a lone surrogate where the model shows the whole character.
- `Text.UpperChar`: upper-cases only ASCII letters, while `toUpperCase` also maps non-ASCII
  letters (`é` to `É`) and can change the length (`ß` to `SS`). Under the model a non-ASCII
  character passes through unchanged.
- `TokenForm.NormalizeSymbol`: counts characters as Unicode scalar values. `slice(0, 8)` counts
  UTF-16 code units, so a symbol with characters outside the Basic Multilingual Plane is cut
  differently.
- `TokenForm.DecimalsValue`: `parseInt` of the select's string value is taken to give the chosen
  option's number.
- Markup, CSS classes, SVG and all framer-motion animation are not modelled. Only the fields the
  card and the snippet print are kept; their surrounding text is left out.
