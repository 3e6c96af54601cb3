# guild.xyz front end: the logic behind the forms, in Dafny

guild.xyz is a web app where a community ("guild") defines roles that
members get by meeting on-chain requirements, such as holding a token, an
NFT, a POAP or a Mirror edition, or by joining a Telegram group. This
project models the deterministic logic inside the app's React front end and
proves properties of that model:

- **the guild list's "Order by" select:** three comparators, the default
  order, and the effect that sorts a copy of the list (`OrderSelect`);
- **the request builder used for every backend call, and its signing
  variant** (`Fetcher`);
- **the token-list merge behind the token picker** (`Tokens`);
- **the Discord OAuth redirect page:** it relays the implicit-grant
  response of section 4.2.2 of RFC 6749, or the error response of section
  4.2.2.1, to the window that opened it (`DcAuth`);
- **the validation rules the forms register with react-hook-form,** and the
  order in which the library applies them (`FormRules`);
- **the requirement cards for ERC-20 tokens, NFTs, POAPs and Mirror
  editions:** their events, lookups, filters, option lists and field rules
  (`TokenFormCard`, `NftFormCard`, `PoapFormCard`, `MirrorFormCard`);
- **the create hooks:** the payload they submit, the endpoint, and what
  happens on success (`CreateGuild`, `CreateRole`, `SubmitEffects`);
- **the Telegram group-ID field, in the create-guild form and in the role
  form** (`TelegramGroup`, `RoleTelegramGroup`).

Three helper modules carry the JavaScript semantics the code relies on:

- `Js` holds JSON-like values, truthiness, `||`, `??`, optional property
  access and template-string conversion.
- `Ascii` holds case mapping, `startsWith`/`includes`/`split`/`join`,
  string `<`, and decimal conversion.
- `Wrappers` holds `Option`.

The form follows the code:

- **Pure logic** becomes functions with lemmas.
- **State the code updates in place** becomes a class whose methods are
  proved against a state function:
  - the order select's state, sorted through an in-place insertion sort on
    a fresh array;
  - the requirement cards, whose events write fields of the requirement
    record and local component state;
  - the role submission, which `onSubmit` mutates with assignments and
    `delete`.
- **The redirect page's effect** is a method that builds its list of
  actions step by step.

Network calls, `JSON.stringify`, `sign`, the token/OpenSea/metadata lookups,
the POAP and edition lists, `preprocessRequirements` and
`preprocessGatedChannels` are parameters.

Some behaviour of the code, modelled and proved as written:

- **Redirect page.** A redirect without a hash still posts a message, after
  navigating to "/" twice (`DcAuth.EmptyHashNavigatesTwice`). An `error`
  parameter that is present but empty counts as success, because the code
  tests it for truthiness.
- **NFT card.** The address check reports "Couldn't fetch NFT data" only
  while the token lookup is still in flight. Once the lookup has finished,
  the check always passes (`NftFormCard.FetchCheckFailsIff`).
- **Telegram group ID.** While the bot is not in the group and the lookup
  gave no message, the bot check lets the field through
  (`TelegramGroup.BotCheckIff`).
- **Role submission.** For a "NEW" role, `activationInterval` and
  `includeUnauthenticated` are deleted from the submitted object itself,
  not from its first role platform. Only `rolePlatformId` is deleted from
  the platform. The model follows the code
  (`CreateRole.FieldsAfterNormalise`).

## Model

| member | source | states |
|---|---|---|
| OrderSelect.CompareNames | src/components/index/OrderSelect.tsx:7-13 | the name comparator yields only -1, 0 or 1: -1 iff the upper-cased first name sorts before the second, 1 iff after, 0 iff the upper-cased names are equal |
| OrderSelect.Compare | src/components/index/OrderSelect.tsx:6-15 | under name: negative iff the upper-cased first name sorts first, zero iff equal; under oldest the smaller id is negative, under newest the larger, zero iff the ids are equal |
| OrderSelect.NameAntisymmetric | src/components/index/OrderSelect.tsx:7-13 | swapping the guilds negates the name comparison |
| OrderSelect.NameIgnoresCase | src/components/index/OrderSelect.tsx:8-12 | names differing only in letter case compare equal |
| OrderSelect.OldestNewest | src/components/index/OrderSelect.tsx:14-15 | `oldest` puts the smaller id first; `newest` is exactly its negation |
| OrderSelect.CompareTotal | src/components/index/OrderSelect.tsx:6-15 | under every comparator, when a must go after b, b goes before a |
| OrderSelect.CompareTransitive | src/components/index/OrderSelect.tsx:6-15 | every comparator is transitive |
| OrderSelect.ComparatorConsistent | src/components/index/OrderSelect.tsx:34 | the comparator handed to `sort` for any order is total and transitive |
| OrderSelect.KeyOf | src/components/index/OrderSelect.tsx:60 | every order is one of the offered keys |
| OrderSelect.OrderOfKey | src/components/index/OrderSelect.tsx:6-20 | a key selects a comparator iff it is one of name, oldest, newest, and it selects the order it names |
| OrderSelect.NeighboursSortedIsSorted | src/components/index/OrderSelect.tsx:34 | under a transitive comparator, ordered neighbours make a fully ordered list |
| OrderSelect.SortInPlace | src/components/index/OrderSelect.tsx:34 | `sort` leaves the array ordered under the comparator and a permutation of its old contents |
| OrderSelect.OrderSelect.constructor | src/components/index/OrderSelect.tsx:30 | the initial order is newest |
| OrderSelect.OrderSelect.SelectOption | src/components/index/OrderSelect.tsx:57 | choosing an option sets the order it names and leaves the list alone |
| OrderSelect.OrderSelect.Refresh | src/components/index/OrderSelect.tsx:32-35 | the new list is a permutation of the guilds, ordered under the chosen comparator, and the guilds array is unchanged |
| Fetcher.Url | src/utils/fetcher.ts:12-14 | the API base is prepended exactly to resources starting with neither "http" nor "/api" |
| Fetcher.SignedBody | src/utils/fetcher.ts:16-29 | without a validation, the body; with one, an object of exactly `payload` plus the validation's fields, where `payload` is the body or `{}` unless the validation overrides it |
| Fetcher.Headers | src/utils/fetcher.ts:33-36 | the caller's headers plus Content-Type exactly when there is a body; the caller's headers win, and otherwise Content-Type is JSON |
| Fetcher.Options | src/utils/fetcher.ts:18-37 | the caller's fields, `headers`, and `method` and `body` exactly with a truthy body; the caller's fields win except headers; POST and the stringified signed body otherwise |
| Fetcher.Fetch | src/utils/fetcher.ts:8-42 | the URL of the resource; a body exactly when the argument's body is truthy; no validation; every other caller field except headers passed unchanged |
| Fetcher.FetchWithSign | src/utils/fetcher.ts:55-69 | the same URL; a body exactly when the argument's is truthy; without a caller validation, the body is the argument's body signed by `sign` of the sign properties and that body |
| Fetcher.SignedPost | src/utils/fetcher.ts:18-42 | a guild API call with a body and a validation is a POST of the stringified signed body under the API base |
| Fetcher.GuildApiCallUrl | src/utils/fetcher.ts:42 | a guild API call's URL starts with the API base; any other resource is fetched as given |
| Fetcher.BodyMakesJsonPost | src/utils/fetcher.ts:18-36 | with a truthy body, the options carry the stringified (possibly signed) body, POST unless the caller sets a method, and a JSON Content-Type unless the caller sets one |
| Fetcher.NoBodyNoPost | src/utils/fetcher.ts:18-36 | without a truthy body there is no body, a method only if the caller gave one, and only the caller's headers |
| Fetcher.SignedBodyShape | src/utils/fetcher.ts:16-29 | for a truthy body: with a validation the serialised value is `{payload: body, ...validation}` (exactly those keys); without it the body itself |
| Fetcher.CallerOverrides | src/utils/fetcher.ts:32-36 | every other caller field reaches `fetch` over the computed ones, and every caller header overrides the computed Content-Type |
| Fetcher.Settle | src/utils/fetcher.ts:43-51 | a null or undefined parsed body rejects with the TypeError thrown at `res.ok`, whatever the status; any other body resolves iff the response is ok, and otherwise rejects with that same body |
| Fetcher.SignedFetchForwards | src/utils/fetcher.ts:55-68 | `sign` receives the body as payload and `forcePrompt` false unless overridden; the fetch receives the same body, the signature unless the caller passes its own `validation`, and the caller's other fields |
| Tokens.KeepOnChain | src/hooks/useTokens.ts:50-52 | the filter keeps exactly the listed tokens whose chainId is the chain's id, and never more than the list holds |
| Tokens.KeepOnChainAppend | src/hooks/useTokens.ts:50-52 | filtering a concatenation is concatenating the filtered parts: order and repetitions are kept |
| Tokens.KeepOnChainSingle | src/hooks/useTokens.ts:50-52 | a single token is kept iff it is on the chain |
| Tokens.Contribution | src/hooks/useTokens.ts:49-53 | a list without a `tokens` array contributes one undefined; otherwise exactly its on-chain tokens, each carried by the list |
| Tokens.Merge | src/hooks/useTokens.ts:47-55 | no lists merge to []; every merged element is an on-chain token or an undefined |
| Tokens.Fetched | src/hooks/useTokens.ts:45 | one fetched list per URL, in URL order |
| Tokens.FetchTokens | src/hooks/useTokens.ts:44-60 | the call produces a list exactly for chains with registered URLs |
| Tokens.TokensKey | src/hooks/useTokens.ts:64 | no fetch is keyed while the chain is empty; otherwise the key is ["tokens", chain] |
| Tokens.MergeAppend | src/hooks/useTokens.ts:47-55 | merging lists is concatenating their contributions in order |
| Tokens.MergeSound | src/hooks/useTokens.ts:47-55 | every merged element is a token of the chain carried by some list, or the undefined a list without `tokens` contributes |
| Tokens.MergeComplete | src/hooks/useTokens.ts:47-55 | every token of the chain in any list, bare array or `{tokens}`, is in the merge |
| Tokens.NativeCurrencyFirst | src/hooks/useTokens.ts:56-59 | with RPC data the native currency comes first, followed by the merge; without it the result is exactly the merge |
| Tokens.PalmHasNoLists | src/hooks/useTokens.ts:41-59 | a chain with no token lists yields only its native currency, or nothing |
| DcAuth.GetParam | src/pages/dcauth.tsx:45-51 | a parameter reads non-null iff it is present, and then as the value of the first pair with that name |
| DcAuth.ParsePair | src/pages/dcauth.tsx:36 | a piece splits at its first "=": the name holds no "=", and neither part holds a character the piece lacks |
| DcAuth.ParsePieces | src/pages/dcauth.tsx:36 | no name holds "="; without "&" in the pieces, no name or value holds "&" |
| DcAuth.ParseQuery | src/pages/dcauth.tsx:36 | no name or value holds "&" and no name holds "="; an empty fragment or a lone "?" has no pairs |
| DcAuth.Effect | src/pages/dcauth.tsx:30-73 | nothing before the router is ready and an opener exists; otherwise one navigation to "/" for a missing hash, one for a malformed fragment, then the message for the fragment posted to origin + "/" + state |
| DcAuth.MessageFor | src/pages/dcauth.tsx:55-72 | an error message, with `error` and `error_description`, iff `error` is a non-empty string; otherwise success carrying `${token_type} ${access_token}` |
| DcAuth.HandleRedirect | src/pages/dcauth.tsx:30-73 | nothing happens before the router is ready and an opener exists; otherwise zero or more navigations to "/" and then exactly one posted message |
| DcAuth.MalformedIff | src/pages/dcauth.tsx:38-43 | a fragment is usable iff it has `state` and either both token fields or both error fields |
| DcAuth.EmptyHashNavigatesTwice | src/pages/dcauth.tsx:35-72 | with no hash the page navigates to "/" twice and still posts a success message "null null" to origin + "/null" |
| DcAuth.ParseEncoded | src/pages/dcauth.tsx:36 | parsing an encoded fragment gives back its name-value pairs |
| DcAuth.SuccessResponsePostsToken | src/pages/dcauth.tsx:64-72 | a well-formed token response posts only the success message with the token type and access token to origin + "/" + state |
| DcAuth.ErrorResponsePostsError | src/pages/dcauth.tsx:55-63 | a response with a non-empty error posts only the error message with the error and description to origin + "/" + state |
| FormRules.Check | src/components/create-guild/Requirements/components/TokenFormCard.tsx:124-137 | a field has no error iff every registered rule passes; otherwise the error is the first failing rule in the order required, max, min, pattern, validate, with that rule's message; min and max compare false as 0 |
| FormRules.ValidateError | src/components/create-guild/Requirements/components/TokenFormCard.tsx:131-136 | a validate result is an error iff it is a string, `false` or an array of strings (even empty); a string is the message, the other two carry "" |
| FormRules.NumberOf | src/components/create-guild/Requirements/components/TokenFormCard.tsx:203-206 | min and max read a number as itself, a string as its decimal value (none for text that is not a whole number), a boolean as 1 or 0, and nothing else as a number |
| FormRules.RequiredOnlyIff | src/components/create-guild/Requirements/components/PoapFormCard/PoapFormCard.tsx:73-75 | a field with only `required` is valid iff it holds a value, and otherwise carries the required message |
| FormRules.RequiredOnly | src/components/create-guild/Requirements/components/PoapFormCard/PoapFormCard.tsx:73-75 | a rules object with the required message and no other rule |
| FormRules.AddressShape | src/components/create-guild/Requirements/components/TokenFormCard.tsx:28 | the address pattern holds iff the text is "0x" or "0X" followed by exactly forty hex digits |
| FormRules.AddressIgnoresCase | src/components/create-guild/Requirements/components/TokenFormCard.tsx:28 | upper- or lower-casing the text does not change the verdict (the `i` flag) |
| FormRules.ZeroAddressIsAddress | src/components/create-guild/Requirements/components/TokenFormCard.tsx:64 | the all-zero address passes the pattern |
| TokenFormCard.TokenCard.constructor | src/components/create-guild/Requirements/components/TokenFormCard.tsx:69 | a card starts untouched, without errors and with empty search text |
| TokenFormCard.AfterChainChange | src/components/create-guild/Requirements/components/TokenFormCard.tsx:55-60 | chain, type, data, touched flag and search text are kept and no error is added; a touched address becomes null and both errors are cleared |
| TokenFormCard.AfterAddressChange | src/components/create-guild/Requirements/components/TokenFormCard.tsx:62-66 | address, chain and value are kept; a change of type is to COIN |
| TokenFormCard.AfterInput | src/components/create-guild/Requirements/components/TokenFormCard.tsx:162-165 | the address is kept or becomes the typed text, which is then an address; chain, type, value, touched flag and errors are kept |
| TokenFormCard.AfterPick | src/components/create-guild/Requirements/components/TokenFormCard.tsx:160 | the address is a string iff an option is picked, and then its value; chain and search text are kept |
| TokenFormCard.AddressValidate | src/components/create-guild/Requirements/components/TokenFormCard.tsx:131-136 | the check is true or the fetch-failure message, and true without an address |
| TokenFormCard.TokenCard.Touch | src/components/create-guild/Requirements/components/TokenFormCard.tsx:161 | blurring the picker marks the address touched and changes nothing else |
| TokenFormCard.TokenCard.ChainChanged | src/components/create-guild/Requirements/components/TokenFormCard.tsx:55-60 | the new state is the reset state of the old one (see ChainChangeResets) |
| TokenFormCard.TokenCard.AddressChanged | src/components/create-guild/Requirements/components/TokenFormCard.tsx:62-66 | the new state is the old one with COIN for the all-zero address (see CoinOnlyForZeroAddress) |
| TokenFormCard.TokenCard.InputChanged | src/components/create-guild/Requirements/components/TokenFormCard.tsx:162-165 | typed text that is an address becomes the field value; other text becomes the search text |
| TokenFormCard.TokenCard.Picked | src/components/create-guild/Requirements/components/TokenFormCard.tsx:160 | the picked option's address becomes the field value, or undefined when the picker is cleared |
| TokenFormCard.AddressRules | src/components/create-guild/Requirements/components/TokenFormCard.tsx:124-130 | the address is required and its pattern is exactly the address check, with the address message |
| TokenFormCard.AmountRules | src/components/create-guild/Requirements/components/TokenFormCard.tsx:201-206 | the amount is required, with the required message, and has min 0 with "Amount must be positive"; no max, pattern or validate |
| TokenFormCard.MenuIsOpen | src/components/create-guild/Requirements/components/TokenFormCard.tsx:166-168 | the menu is forced only for more than 80 tokens, and then open iff more than two characters are typed |
| TokenFormCard.ChainChangeResets | src/components/create-guild/Requirements/components/TokenFormCard.tsx:55-60 | a chain change sets a touched address to null and the amount to 0 and clears both errors; an untouched card is unchanged; resetting twice is resetting once |
| TokenFormCard.ResetAmountIsValid | src/components/create-guild/Requirements/components/TokenFormCard.tsx:58 | the amount a reset writes satisfies the amount rules |
| TokenFormCard.CoinOnlyForZeroAddress | src/components/create-guild/Requirements/components/TokenFormCard.tsx:62-66 | only the all-zero address sets the type to COIN; nothing else changes |
| TokenFormCard.InputBecomesValidAddress | src/components/create-guild/Requirements/components/TokenFormCard.tsx:162-165 | text that becomes the value passes the required and pattern rules; other text leaves the requirement unchanged |
| TokenFormCard.FetchCheckFailsIff | src/components/create-guild/Requirements/components/TokenFormCard.tsx:131-136 | the fetch check fails, with "Failed to fetch token data", iff an address is set, no lookup is in flight and the data was not fetched |
| TokenFormCard.FetchCheckWithLookup | src/components/create-guild/Requirements/components/TokenFormCard.tsx:78-85 | with the lookup's answer, the check fails iff an address is set, nothing is in flight, and the name or symbol is missing or "-" |
| TokenFormCard.AddressAcceptedIff | src/components/create-guild/Requirements/components/TokenFormCard.tsx:124-137 | a typed address is accepted iff it is well formed and the lookup is in flight or succeeded; empty text fails as required, malformed text fails the pattern |
| TokenFormCard.AmountAcceptedIff | src/components/create-guild/Requirements/components/TokenFormCard.tsx:201-206 | an amount is accepted iff it is at least 0; a negative one fails min; a missing one fails required |
| NftFormCard.NftCard.constructor | src/components/create-guild/NftFormCard/NftFormCard.tsx:50-63 | a card starts with the field's requirement, no picked collection slug (null) and no custom address (false) |
| NftFormCard.NftCard.PickListed | src/components/create-guild/NftFormCard/NftFormCard.tsx:153-160 | the new state is the listed-pick state of the old one (see PickListedResets) |
| NftFormCard.NftCard.CreateOption | src/components/create-guild/NftFormCard/NftFormCard.tsx:161-165 | a created option sets the custom flag, the address and type OPENSEA, nothing else |
| NftFormCard.NftCard.CustomNftLookupSettled | src/components/create-guild/NftFormCard/NftFormCard.tsx:68-81 | the new state is the settled state of the old one (see CustomNftSettles) |
| NftFormCard.PickListedResets | src/components/create-guild/NftFormCard/NftFormCard.tsx:153-160 | a listed pick gives an OPENSEA requirement for its address with null data and value, its slug, no custom flag, and the same chain |
| NftFormCard.ListedPickIgnoresLookup | src/components/create-guild/NftFormCard/NftFormCard.tsx:69 | after a listed pick the custom-NFT effect changes nothing |
| NftFormCard.CustomNftSettles | src/components/create-guild/NftFormCard/NftFormCard.tsx:68-81 | after a custom address the data is null; a finished OpenSea match gives OPENSEA, null value and its slug; otherwise NFT with amount 1, which passes the amount rules |
| NftFormCard.AfterPickListed | src/components/create-guild/NftFormCard/NftFormCard.tsx:153-160 | chain kept, the picked address set, the custom flag cleared |
| NftFormCard.AfterCreateOption | src/components/create-guild/NftFormCard/NftFormCard.tsx:161-165 | custom flag set, address the created text, type OPENSEA; chain, value, data and slug kept |
| NftFormCard.AfterCustomNftLookup | src/components/create-guild/NftFormCard/NftFormCard.tsx:68-81 | nothing changes without the custom flag; otherwise data null, chain and address kept, and type OPENSEA iff the OpenSea lookup finished with a match, NFT otherwise |
| NftFormCard.AddressValidate | src/components/create-guild/NftFormCard/NftFormCard.tsx:132-137 | the check is true or the fetch-failure message, and true once a finished OpenSea lookup matched |
| NftFormCard.AttributeOptions | src/components/create-guild/NftFormCard/NftFormCard.tsx:206-217 | no options without names, otherwise one more than the names; every caption non-empty |
| NftFormCard.ValueOptions | src/components/create-guild/NftFormCard/NftFormCard.tsx:341-356 | no options without values, otherwise "" first and then each value in order |
| NftFormCard.RangeLow | src/components/create-guild/NftFormCard/NftFormCard.tsx:254-260 | emptied text gives the lower bound, which passes the range rules when the bounds are ordered; other text gives its number |
| NftFormCard.RangeHigh | src/components/create-guild/NftFormCard/NftFormCard.tsx:304-310 | emptied text gives the upper bound, which passes the range rules when the bounds are ordered; other text gives its number |
| NftFormCard.AmountOrAttributes | src/components/create-guild/NftFormCard/NftFormCard.tsx:191-194 | with an address and the metadata loaded (the amount field's own condition is line 366), the amount and the attribute pickers are never both shown: the amount iff there are no attribute names, the pickers iff there are names and the type is not NFT; while the metadata loads the amount is hidden |
| NftFormCard.NoAddressShowsPickers | src/components/create-guild/NftFormCard/NftFormCard.tsx:191-194 | without an address the attribute pickers show and the amount does not |
| NftFormCard.WrongChainNotFetched | src/components/create-guild/NftFormCard/NftFormCard.tsx:88-100 | a wrong chain never counts as fetched data |
| NftFormCard.AddressRules | src/components/create-guild/NftFormCard/NftFormCard.tsx:127-131 | the address is required, and its pattern is exactly the address check, with the address message |
| NftFormCard.FetchCheckFailsIff | src/components/create-guild/NftFormCard/NftFormCard.tsx:132-137 | the check fails iff there is no finished OpenSea match, the token lookup is in flight and the chain is wrong; once the lookup finishes it passes |
| NftFormCard.AddressPatternIff | src/components/create-guild/NftFormCard/NftFormCard.tsx:34 | a non-empty address fails the pattern iff it is not well formed; "0X" is as good as "0x" |
| NftFormCard.FilterProperties | src/components/create-guild/NftFormCard/NftFormCard.tsx:166-172 | the filter ignores case on every side, an empty input matches all, and an option's own address matches it |
| NftFormCard.Capitalise | src/components/create-guild/NftFormCard/NftFormCard.tsx:212-213 | capitalising keeps the length and the letters up to case, upper-cases the first, keeps the rest |
| NftFormCard.AttributeOptionsShape | src/components/create-guild/NftFormCard/NftFormCard.tsx:206-217 | no names, no options; otherwise "" labelled "Any attribute" first, then each name in order, labelled capitalised |
| NftFormCard.ValueLabel | src/components/create-guild/NftFormCard/NftFormCard.tsx:346-352 | a value's label is never empty: the placeholder for a missing or empty value, otherwise the capitalised text |
| NftFormCard.ValueOptionsShape | src/components/create-guild/NftFormCard/NftFormCard.tsx:341-356 | no values, no options; otherwise "" first, then each value in order, each with a non-empty label |
| NftFormCard.RangeRules | src/components/create-guild/NftFormCard/NftFormCard.tsx:238-247 | the range inputs carry only min and max rules, bounded by the two values with the messages "Minimum: " and "Maximum: " followed by the bound |
| NftFormCard.RangeFallbacks | src/components/create-guild/NftFormCard/NftFormCard.tsx:254-260 | an emptied input falls back to its own bound, and a number is accepted iff it lies between the two bounds |
| NftFormCard.AmountRules | src/components/create-guild/NftFormCard/NftFormCard.tsx:374-385 | the amount's min is 1 with "Amount must be positive", with no max, pattern or validate |
| NftFormCard.AmountRulesIff | src/components/create-guild/NftFormCard/NftFormCard.tsx:374-385 | a missing amount fails iff the card is a custom plain NFT; a given amount passes iff it is at least 1 |
| PoapFormCard.MapPoaps | src/components/create-guild/Requirements/components/PoapFormCard/PoapFormCard.tsx:28-36 | one option per POAP, in order, with its image, name and fancy id |
| PoapFormCard.FindPoap | src/components/create-guild/Requirements/components/PoapFormCard/PoapFormCard.tsx:39-42 | the index of the first POAP with the fancy id, none iff no POAP has it |
| PoapFormCard.PoapByFancyId | src/components/create-guild/Requirements/components/PoapFormCard/PoapFormCard.tsx:39-42 | the lookup finds the first POAP with the chosen fancy id, and null iff there is none (or no list) |
| PoapFormCard.OptionFindsPoap | src/components/create-guild/Requirements/components/PoapFormCard/PoapFormCard.tsx:28-42 | choosing any option finds a POAP with its fancy id |
| PoapFormCard.FilterIgnoresCase | src/components/create-guild/Requirements/components/PoapFormCard/PoapFormCard.tsx:15-17 | the filter ignores letter case in the name and the input |
| PoapFormCard.WordMatches | src/components/create-guild/Requirements/components/PoapFormCard/PoapFormCard.tsx:17 | a name made of space-separated words matches each of its words, in any case |
| PoapFormCard.OnlyTwoWays | src/components/create-guild/Requirements/components/PoapFormCard/PoapFormCard.tsx:15-17 | a match is a prefix of the lower-cased name or one whole space-free word of it |
| PoapFormCard.ValueRequired | src/components/create-guild/Requirements/components/PoapFormCard/PoapFormCard.tsx:73-75 | the value is valid iff a POAP is chosen |
| MirrorFormCard.MapEditions | src/components/create-guild/Requirements/components/MirrorFormCard/MirrorFormCard.tsx:34-44 | one option per edition, in order, with its image, title, id, "#id" details and contract address; none without a list |
| MirrorFormCard.EditionById | src/components/create-guild/Requirements/components/MirrorFormCard/MirrorFormCard.tsx:49-56 | the lookup finds the first edition with both the chosen id and contract address, and null iff there is none |
| MirrorFormCard.FindEdition | src/components/create-guild/Requirements/components/MirrorFormCard/MirrorFormCard.tsx:49-56 | the index of the first edition with the id and contract, none iff no edition has both |
| MirrorFormCard.AfterChoose | src/components/create-guild/Requirements/components/MirrorFormCard/MirrorFormCard.tsx:105-108 | search text, chain and type kept; a choice writes its id and contract, clearing leaves both empty |
| MirrorFormCard.MirrorCard.constructor | src/components/create-guild/Requirements/components/MirrorFormCard/MirrorFormCard.tsx:47 | a card starts with empty search text |
| MirrorFormCard.MirrorCard.Choose | src/components/create-guild/Requirements/components/MirrorFormCard/MirrorFormCard.tsx:105-108 | choosing writes the edition id into the value and its contract into the address; clearing makes both undefined |
| MirrorFormCard.MirrorCard.InputChanged | src/components/create-guild/Requirements/components/MirrorFormCard/MirrorFormCard.tsx:110-111 | typing sets the search text, and the menu is then open iff it is longer than two characters |
| MirrorFormCard.OptionDetails | src/components/create-guild/Requirements/components/MirrorFormCard/MirrorFormCard.tsx:40 | an option's details are "#" followed by text that reads back as the edition id |
| MirrorFormCard.ChosenEditionFound | src/components/create-guild/Requirements/components/MirrorFormCard/MirrorFormCard.tsx:105-108 | after choosing an option the lookup finds an edition with its id and contract; chain and type are kept |
| MirrorFormCard.ClearingFailsRequired | src/components/create-guild/Requirements/components/MirrorFormCard/MirrorFormCard.tsx:87-89 | a cleared picker fails the required rule |
| MirrorFormCard.FilterProperties | src/components/create-guild/Requirements/components/MirrorFormCard/MirrorFormCard.tsx:112-114 | the filter ignores letter case and an empty input matches every option |
| CreateGuild.Endpoint | src/components/create-guild/hooks/useCreate.tsx:44 | /role with a guild in the route, /guild otherwise |
| CreateGuild.PlatformId | src/components/create-guild/hooks/useCreate.tsx:122 | the `platformId` of the chosen platform's section, undefined when that section is not an object |
| CreateGuild.Payload | src/components/create-guild/hooks/useCreate.tsx:108-131 | role mode keeps every form field and sets the requirements; guild mode has exactly the guild fields, the chosen platform's id and one role |
| CreateGuild.OnSuccess | src/components/create-guild/hooks/useCreate.tsx:58-103 | five effects, confetti first, then the toast for a role or for a guild |
| CreateGuild.RoleModePayload | src/components/create-guild/hooks/useCreate.tsx:109-114 | role mode sends the form data with only the requirements replaced, preprocessed, and missing ones read as [] |
| CreateGuild.GuildModePayload | src/components/create-guild/hooks/useCreate.tsx:115-131 | guild mode sends exactly the eight guild fields, the platform id from the chosen platform's section, and one "Member" role with the image and preprocessed requirements |
| CreateGuild.SubmitIsSignedPost | src/components/create-guild/hooks/useCreate.tsx:40-47 | the payload is posted, signed, as JSON to the API base plus the endpoint |
| CreateGuild.SuccessEffects | src/components/create-guild/hooks/useCreate.tsx:58-103 | confetti first and both list invalidations last; a role revalidates its guild and stays, a guild navigates to its urlName and revalidates nothing else |
| SubmitEffects.FamiliesDisjoint | src/components/create-guild/hooks/useCreate.tsx:101-102 | no cache key belongs to both invalidated families |
| CreateRole.RoleSubmission.Normalise | src/components/create-guild/hooks/useCreateRole.tsx:96-108 | the data becomes its normalised form, and the call reports whether it got past the gated-channels assignment |
| CreateRole.Normalised | src/components/create-guild/hooks/useCreateRole.tsx:96-108 | the requirements are always preprocessed; on success roleType is gone and rolePlatforms is kept; on a TypeError only the requirements changed |
| CreateRole.OnSuccess | src/components/create-guild/hooks/useCreateRole.tsx:51-91 | at least four effects, the last two the list invalidations; exactly four without a guild in the route |
| CreateRole.RequirementsReplaced | src/components/create-guild/hooks/useCreateRole.tsx:98 | requirements become their preprocessed form, missing ones read as [], whether or not the rest succeeds |
| CreateRole.TypeErrorIff | src/components/create-guild/hooks/useCreateRole.tsx:99-101 | the gated-channels assignment throws iff there is no first role platform holding a platformRoleData object, and then only the requirements were replaced |
| CreateRole.FieldsAfterNormalise | src/components/create-guild/hooks/useCreateRole.tsx:103-108 | roleType is gone; activationInterval and includeUnauthenticated are removed exactly for "NEW"; every other field is untouched |
| CreateRole.FirstPlatformAfterNormalise | src/components/create-guild/hooks/useCreateRole.tsx:99-104 | the first platform's gated channels are preprocessed; its rolePlatformId is removed exactly for "NEW" and otherwise kept; every other field of it and of its platformRoleData is unchanged; the other platforms are unchanged |
| CreateRole.SubmitIsSignedPost | src/components/create-guild/hooks/useCreateRole.tsx:37-44 | a role is posted, signed, as JSON to the API base plus /role |
| CreateRole.SuccessEffects | src/components/create-guild/hooks/useCreateRole.tsx:51-90 | confetti iff confetti mode with a guild in the route; the "Role successfully created" toast iff a guild is in the route; the details, access and both list keys are always revalidated, last |
| TelegramGroup.PatternShape | src/components/create-guild/TelegramGroup/TelegramGroup.tsx:93 | the pattern holds iff the text starts with '-' and a digit, whatever follows |
| TelegramGroup.BotCheck | src/components/create-guild/TelegramGroup/TelegramGroup.tsx:96 | `isIn` when it is truthy, otherwise the lookup's message |
| TelegramGroup.GroupIdRules | src/components/create-guild/TelegramGroup/TelegramGroup.tsx:90-97 | required, the Group ID pattern and message, and the bot check as validate; no min or max |
| TelegramGroup.PastedEffect | src/components/create-guild/TelegramGroup/TelegramGroup.tsx:43-46 | at most one step, the "Pasted a Telegram group ID" action |
| TelegramGroup.BotEffect | src/components/create-guild/TelegramGroup/TelegramGroup.tsx:48-59 | either only the recorded error, or three steps ending with "Successful platform setup" |
| TelegramGroup.Button | src/components/create-guild/TelegramGroup/TelegramGroup.tsx:66-83 | the invite button iff the bot is not in, captioned "Add Guild bot"; otherwise "Guild bot added" |
| TelegramGroup.BotCheckIff | src/components/create-guild/TelegramGroup/TelegramGroup.tsx:96 | for a boolean or missing `ok`, the bot check fails iff the bot is not in and the lookup gave a message, an array of messages or false, with that message; a missing message passes |
| TelegramGroup.GroupIdErrors | src/components/create-guild/TelegramGroup/TelegramGroup.tsx:90-97 | a typed ID is accepted iff it is non-empty, passes the pattern and the bot check; otherwise required, the Group ID message, or the lookup's message, in that order |
| TelegramGroup.BotEffectIff | src/components/create-guild/TelegramGroup/TelegramGroup.tsx:48-59 | validation is triggered iff the bot is in with no message; otherwise the error is recorded; never both |
| TelegramGroup.PastedEffectIff | src/components/create-guild/TelegramGroup/TelegramGroup.tsx:43-46 | a pasted ID is recorded iff it is truthy |
| TelegramGroup.ButtonStates | src/components/create-guild/TelegramGroup/TelegramGroup.tsx:66-83 | the invite link shows iff the bot is not in, disabled exactly while loading; otherwise a disabled "added" button |
| TelegramGroup.PatternAcceptsLetters | src/components/create-guild/TelegramGroup/TelegramGroup.tsx:93 | "-1a" passes the pattern and, with the bot in, the whole field |
| TelegramGroup.IsGroupIdShape | src/components/create-guild/TelegramGroup/TelegramGroup.tsx:93-94 | the anchored pattern holds iff the text is '-' followed by one or more digits |
| TelegramGroup.StrictGroupIdIff | src/components/create-guild/TelegramGroup/TelegramGroup.tsx:93-94 | with the anchored pattern the field is accepted iff the text is a group ID and the bot check passes; such text also passes the pattern as written |
| TelegramGroup.StrictGroupIdRules | src/components/create-guild/TelegramGroup/TelegramGroup.tsx:90-97 | as GroupIdRules, with a pattern that holds exactly for a group ID |
| TelegramGroup.StrictRejectsLetters | src/components/create-guild/TelegramGroup/TelegramGroup.tsx:93-94 | the anchored pattern rejects "-1a" with the Group ID message |
| RoleTelegramGroup.OtherPlatformPasses | src/components/create-guild/PickRolePlatform/components/TelegramGroup/TelegramGroup.tsx:71-72 | with another platform chosen the field never has an error |
| RoleTelegramGroup.RoleBotCheck | src/components/create-guild/PickRolePlatform/components/TelegramGroup/TelegramGroup.tsx:72 | true for another platform; on Telegram, the bot check of the create-guild form |
| RoleTelegramGroup.TgRules | src/components/create-guild/PickRolePlatform/components/TelegramGroup/TelegramGroup.tsx:70-73 | required, with the required message, iff the platform is Telegram; no min, max or pattern; the role bot check as validate |
| RoleTelegramGroup.RoleBotEffect | src/components/create-guild/PickRolePlatform/components/TelegramGroup/TelegramGroup.tsx:30-34 | either nothing or one validation trigger |
| RoleTelegramGroup.RoleButton | src/components/create-guild/PickRolePlatform/components/TelegramGroup/TelegramGroup.tsx:47-63 | the invite button iff the bot is not in, disabled exactly while loading |
| RoleTelegramGroup.TelegramIff | src/components/create-guild/PickRolePlatform/components/TelegramGroup/TelegramGroup.tsx:70-73 | on Telegram the field fails required when empty; otherwise it passes iff the bot check passes, and else carries its message |
| RoleTelegramGroup.SameTrigger | src/components/create-guild/PickRolePlatform/components/TelegramGroup/TelegramGroup.tsx:30-34 | validation is triggered under the same condition as in the create-guild form, and nothing else happens |
| RoleTelegramGroup.ButtonMatches | src/components/create-guild/PickRolePlatform/components/TelegramGroup/TelegramGroup.tsx:47-63 | the button behaves as in the create-guild form, under the "Guildxyz" captions |

## Left out

- Network and storage: `fetch`, `response.json()`, SWR caching, and the effect of `mutate`/`matchMutate` are not modelled. The keys handed to them are modelled.
- Telemetry: datadog actions and errors are left out, except in the Telegram effects, where they are the effect and appear as named records.
- Signing: wallet signing and session orchestration are parameters. So are `sign`, `JSON.stringify`, `preprocessRequirements`, `preprocessGatedChannels` and `guildJsonReplacer`. The `JSON.parse(JSON.stringify(...))` round trip, which drops undefined fields, is also left out.
- Lookups: the token, OpenSea, metadata and Telegram-bot lookups enter as their results and loading flags. So do the POAP and edition lists and `Chains`/`RPC`.
- DcAuth.ParseQuery: does not decode `%xx` escapes or '+', because the model has no percent-encoding.
- Case mapping is ASCII only, with no Unicode case mapping. String `<` compares characters as code points.
- Numbers are integers. This leaves out floating point, the unary `+` on typed text (a parameter), `valueAsNumber`, and `Infinity`/`NaN` in the subtractions of `oldest`/`newest`.
- OrderSelect.SortInPlace: is an insertion sort. It does not model the engine's sort algorithm or a comparator that is not consistent. Its contract promises order and permutation, not stability.
- Tokens.FetchTokens: does not model the `Promise.all` rejection when one list fails to load. A chain without registered lists is None, standing for the TypeError.
- Js.ToText: prints arrays as "" and objects as "[object Object]", without joining array elements.
- Js.SpreadFields: spreading a string or array into an object is modelled as adding no fields.
- CreateRole.Normalised: objects are values, so aliasing between the submitted object and other references is not captured. Two cases are also left out: a `rolePlatforms` object with key "0" in place of an array, and a platformRoleData that is an array.
- CreateRole.Normalised: assigning into a primitive `platformRoleData` counts as the TypeError of strict mode.
- Rendering: UI rendering, `isInvalid` display logic, toasts' descriptions and share links, image upload and the icon picker are left out.
- PoapFormCard.CustomFilter: the model needs an input string. With an undefined input the source would compare against the text "undefined".
- TokenFormCard.TokenDataFetched: is only stated through FetchCheckWithLookup. The picker's own `createFilter` prefix match is the library's and is left out.
- FormRules.NumberOf: arrays and objects, which `+` can turn into numbers, give no number here; nor does text with a fraction, an exponent or surrounding spaces.
- NftFormCard.ShowRange: `isNumber` is not part of this model. It is taken to hold exactly for number values, so numeric strings such as "1" and "10" show the value picker, not the range inputs.
- Fetcher.Settle: a body that fails to parse as JSON is left out (`response.json()` is outside the model).

## Findings

| source | as written | input that shows it | evidently intended | confidence | as-written member | corrected member |
|---|---|---|---|---|---|---|
| src/components/create-guild/TelegramGroup/TelegramGroup.tsx:93-94 | `/^-[0-9]+/i` anchors only the start, so anything may follow the first digit | "-1a" passes the pattern, and the whole field once the bot is in | an ID that is '-' followed by digits only, as the message "contains only numbers" says (`/^-[0-9]+$/`) | medium, not executed | TelegramGroup.PatternAcceptsLetters | TelegramGroup.StrictGroupIdIff |

`TelegramGroup.GroupIdRules` keeps the pattern as written, because it models
the form. `TelegramGroup.StrictGroupIdRules` is the anchored version.
`TelegramGroup.StrictRejectsLetters` shows that it turns the example away.
