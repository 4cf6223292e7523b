# Football player slideshow: club-logo resolution and page logic

A Dafny model of the logic behind a browser slideshow of football-player cards. The
model covers two pieces.

- **Club-name resolution** (`my-app/app/constants/clubLogoMap.js`). This is the
  51-entry club-to-crest table, the key normaliser `normalizeKey` and the lookup
  `getClubLogo`. The lookup tries three tiers in order: the literal key, then a key with
  an equal normal form, then a key whose normal form contains or is contained in the
  query's. Within each tier the keys are scanned in table order and the first hit wins.
- **The slideshow page** (`my-app/app/page.js`) without its rendering. This covers:
  - the merge of CSV rows into the player list;
  - the navigation state (`index`, `jumpToPlayer`, `showJumpInput`) and its handlers;
  - the team-logo fallback chain `getTeamLogo`;
  - the stat colour bands `getStatColors`;
  - the window of pagination dots.

Files:

- `wrappers.dfy` holds `Option`. `None` stands for `null`, `undefined` and `NaN`.
- `js_string.dfy` (module `JsString`) holds the JavaScript string built-ins the code
  relies on. These are the `\s` class, `toLowerCase`, `trim`, `includes` and `parseInt`
  (ECMAScript rules, including the `0x` prefix when no radix is given).
- `club_logo_map.dfy` (module `ClubLogoMap`) covers `clubLogoMap.js`.
  - `NormalizeKey` follows the source's chain of passes. `CanonicalKey` is an independent
    one-pass reference definition, and the two are proved equal.
  - `ClubLogo` is the resolution as a function. `GetClubLogo` is the source's
    step-by-step search (a property lookup and two loops with early return), proved equal
    to `ClubLogo`.
  - The table is a parameter of both, a sequence of entries in listing order. Every
    property is proved for any such table. It describes the JavaScript object when no key
    repeats and no key is array-index-like, since `Object.keys` lists index-like keys
    first. `ClubLogoTable` is the source's table. Its 51 keys are distinct, and each
    starts with an upper-case letter, so none is index-like (`ClubLogoTableKeys`). `Slideshow.TeamLogo` takes the table the same
    way; on the page it is `ClubLogoTable`.
- `slideshow.dfy` (module `Slideshow`) covers `page.js`.
  - The pure helpers are functions.
  - The `useState` fields the handlers update form the class `SlideshowState`. Its
    methods give the net effect of each handler.

Four behaviours of the code that the model keeps as written:

- **Accented letters are dropped** (`my-app/app/constants/clubLogoMap.js:71`). The
  pattern `[^\w]` has no `u` flag, so `\w` is ASCII-only. "Atlético Madrid" therefore
  normalises to `atlticomadrid`.
- **Table order decides** (`my-app/app/constants/clubLogoMap.js:89`, `:94`). Both scans
  walk `Object.keys` and return at the first hit, so the model keeps the table as an
  ordered sequence.
- **An empty normal form matches every key**
  (`my-app/app/constants/clubLogoMap.js:96`). The empty string is included in every
  string, so a name such as "!!!" resolves to the first entry.
- **The CSV match is never read** (`my-app/app/page.js:54-61`). `csvMatch` is computed
  and then ignored. Every `basePrice` is the player's own `base_price`, or "N/A".

## Model

| member | source | states |
|---|---|---|
| JsString.IsSpace | my-app/app/constants/clubLogoMap.js:70 | the `\s` class: the ECMAScript WhiteSpace and LineTerminator code points (a definition; `TrimStart`, `TrimEnd` and `RemoveWhitespace` state what removing them does) |
| JsString.IsWordChar | my-app/app/constants/clubLogoMap.js:71 | `\w` without the `u` flag: ASCII letters, digits and `_` (a definition; `RemoveNonWord` states what keeping only them does) |
| JsString.ToLowerCase | my-app/app/constants/clubLogoMap.js:69 | same length; each character is its lower-case form (ASCII case mapping) |
| JsString.TrimStart | my-app/app/page.js:53 | the result is a suffix of the input, whatever was removed is whitespace, and the result does not start with whitespace |
| JsString.TrimEnd | my-app/app/page.js:55 | the result is a prefix of the input, whatever was removed is whitespace, and the result does not end with whitespace |
| JsString.Trim | my-app/app/page.js:53-55 | the trimmed string neither starts nor ends with whitespace |
| JsString.Contains | my-app/app/constants/clubLogoMap.js:96 | `includes`, as a search over start positions; `ContainsIffOccurs` proves it equal to "occurs at some index", `ContainsEmpty` and `ContainsSelf` give the edge cases |
| JsString.ContainsEmpty | my-app/app/constants/clubLogoMap.js:96 | the empty string is included in every string |
| JsString.ContainsIffOccurs | my-app/app/constants/clubLogoMap.js:96 | `includes` holds exactly when the substring occurs at some position |
| JsString.DigitPrefix | my-app/app/page.js:112 | `parseInt` reads the longest run of digits: a prefix, all digits, stopped by a non-digit |
| JsString.ParseInt | my-app/app/page.js:112 | `parseInt` with or without radix 10 (also line 138): skip leading whitespace, read a sign and the longest digit run; `ParseIntOfNatString` and `ParseIntOfMinus` give the round trips, `DigitPrefix` the digit run |
| JsString.ParseIntOfNatString | my-app/app/page.js:112 | `parseInt` of the decimal spelling of any natural number gives that number back, with or without radix 10 |
| JsString.ParseIntOfMinus | my-app/app/page.js:112 | `parseInt` of a minus sign followed by the spelling of `n` gives `-n`, with or without radix 10 |
| ClubLogoMap.RemoveWhitespace | my-app/app/constants/clubLogoMap.js:70 | the result keeps every non-whitespace character and holds no whitespace |
| ClubLogoMap.RemoveNonWord | my-app/app/constants/clubLogoMap.js:71 | the result keeps every word character and holds nothing else |
| ClubLogoMap.RemoveWhitespaceOfChar | my-app/app/constants/clubLogoMap.js:70 | on one character the whitespace pass drops a space and keeps anything else |
| ClubLogoMap.RemoveWhitespaceOfConcat | my-app/app/constants/clubLogoMap.js:70 | the whitespace pass distributes over concatenation, so with the one-character case it keeps the order and multiplicity of every non-space character |
| ClubLogoMap.RemoveNonWordOfChar | my-app/app/constants/clubLogoMap.js:71 | on one character the non-word pass keeps a word character and drops anything else |
| ClubLogoMap.RemoveNonWordOfConcat | my-app/app/constants/clubLogoMap.js:71 | the non-word pass distributes over concatenation, so with the one-character case it keeps the order and multiplicity of every word character |
| ClubLogoMap.NormalizeKey | my-app/app/constants/clubLogoMap.js:67-72 | every character of a normalised key is a lower-case ASCII letter, a digit or `_` |
| ClubLogoMap.NormalizeKeyOfMissing | my-app/app/constants/clubLogoMap.js:68 | a missing or empty value normalises to `""` |
| ClubLogoMap.NormalizeKeyIsCanonicalKey | my-app/app/constants/clubLogoMap.js:67-72 | the lower-case, strip-whitespace, strip-non-word chain equals the one-pass reference definition |
| ClubLogoMap.NormalizeKeyIdempotent | my-app/app/constants/clubLogoMap.js:67-72 | normalising a normalised key changes nothing |
| ClubLogoMap.FirstHit | my-app/app/constants/clubLogoMap.js:89-97 | a scan's result is the first index from which the tier hits, with no earlier hit; `None` means no key hits |
| ClubLogoMap.ClubLogo | my-app/app/constants/clubLogoMap.js:81-100 | the three-tier resolution as a function; `GetClubLogo` is proved equal to it, and the lemmas below state its properties |
| ClubLogoMap.GetClubLogo | my-app/app/constants/clubLogoMap.js:81-100 | the search with its two loops returns exactly the three-tier resolution `ClubLogo` |
| ClubLogoMap.ClubLogoTableKeys | my-app/app/constants/clubLogoMap.js:2-65 | the crest table `ClubLogoTable` has 51 entries, and every key starts with an upper-case ASCII letter |
| ClubLogoMap.ClubLogoOfMissingName | my-app/app/constants/clubLogoMap.js:82 | a missing or empty name resolves to null before any tier runs |
| ClubLogoMap.KeyResolvesToItsValue | my-app/app/constants/clubLogoMap.js:85 | in a table with distinct keys, a non-empty key resolves to its own value |
| ClubLogoMap.AliasesResolveAlike | my-app/app/constants/clubLogoMap.js:4-5 | "Man City" and "Manchester City" both resolve to the Manchester City crest |
| ClubLogoMap.ResultIsTableValue | my-app/app/constants/clubLogoMap.js:85-99 | every non-null result is the value of some table entry |
| ClubLogoMap.NullIffNoRelatedKey | my-app/app/constants/clubLogoMap.js:82-99 | the result is null exactly when the name is missing or empty, or no key's normal form contains or is contained in the name's |
| ClubLogoMap.OnlyNormalFormMatters | my-app/app/constants/clubLogoMap.js:88-97 | two non-empty names that are not keys and share a normal form resolve alike |
| ClubLogoMap.NormalizedEqualBeatsFuzzy | my-app/app/constants/clubLogoMap.js:89-91 | for a name that is not a key, the first key with an equal normal form wins, even over an earlier key related by containment |
| ClubLogoMap.EarliestRelatedKeyWins | my-app/app/constants/clubLogoMap.js:94-97 | with no key of equal normal form, the first key related by containment, in either direction, wins |
| ClubLogoMap.EmptyNormalFormTakesFirstEntry | my-app/app/constants/clubLogoMap.js:96 | a non-key name with an empty normal form resolves to the first entry when no key normalises to `""` |
| ClubLogoMap.NormalFormOfUpperInitial | my-app/app/constants/clubLogoMap.js:67-72 | a key starting with an upper-case ASCII letter has a non-empty normal form |
| ClubLogoMap.EmptyNormalFormOverUpperKeys | my-app/app/constants/clubLogoMap.js:94-97 | when every key starts with an upper-case ASCII letter, a name with an empty normal form that does not start with one resolves to the first entry |
| ClubLogoMap.PunctuationOnlyNameTakesFirstEntry | my-app/app/constants/clubLogoMap.js:96 | "!!!" resolves to the first crest of the table, Manchester City's |
| Slideshow.MatchKey | my-app/app/page.js:53 | `s?.trim().toLowerCase()`, a missing name staying missing (its parts are stated by `Trim` and `ToLowerCase`) |
| Slideshow.RowMatches | my-app/app/page.js:55-56 | the `find` test: the two keys are equal, or either includes the other (one side missing is read as the text "undefined"); `FindCsvMatch` states what the search does with it |
| Slideshow.FindCsvMatch | my-app/app/page.js:54-57 | `find` returns the first row whose trimmed, lower-cased name equals, includes or is included in the player's; `None` exactly when no row does |
| Slideshow.MergePlayer | my-app/app/page.js:52-62 | one record of the merge: the player with `basePrice` set; `MergeKeepsPlayers` states the result, `MergeIgnoresCsv` that the CSV match is unused |
| Slideshow.MergePrices | my-app/app/page.js:52-63 | the `map` over the players; `MergeKeepsPlayers` and `MergeIgnoresCsv` state its result |
| Slideshow.LoadPlayers | my-app/app/page.js:65-72 | the list stored by `setPlayers`: the merge with a CSV, the fetched list without one (`LoadWithoutCsvKeepsPlayers`) |
| Slideshow.MergeKeepsPlayers | my-app/app/page.js:52-63 | the merged list has the same length and order; each record is its player except for `basePrice`, which is `base_price` when truthy, else "N/A" |
| Slideshow.MergeIgnoresCsv | my-app/app/page.js:54-61 | the merged list is the same whatever the CSV rows are |
| Slideshow.LoadWithoutCsvKeepsPlayers | my-app/app/page.js:66-72 | when the CSV is missing or fails, the stored list is the fetched one unchanged |
| Slideshow.NextIndex | my-app/app/page.js:98 | the next index stays in `[0, n)`: one more, or 0 after the last player |
| Slideshow.PrevIndex | my-app/app/page.js:106 | the previous index stays in `[0, n)`: one less, or the last player before the first |
| Slideshow.PrevUndoesNext | my-app/app/page.js:98-106 | "prev" undoes "next" and "next" undoes "prev" |
| Slideshow.AdvanceWraps | my-app/app/page.js:98 | up to `n` presses of "next" advance that many places, wrapping around once |
| Slideshow.FullTurnReturns | my-app/app/page.js:98 | `n` presses of "next" return to the starting player |
| Slideshow.JumpTarget | my-app/app/page.js:111-113 | a jump target lies in `[0, n)` |
| Slideshow.JumpToTypedNumber | my-app/app/page.js:111-122 | typing the number `k` selects index `k - 1` when `1 <= k <= n`, and nothing otherwise |
| Slideshow.JumpToNegativeNumber | my-app/app/page.js:111-122 | typing a negative number selects nothing |
| Slideshow.DotIndices | my-app/app/page.js:462-463 | 1 to 11 dots, increasing left to right, all in `[0, n)`, holding exactly the indices within 5 of the current one; dot `k` is player `max(0, index - 5) + k` |
| Slideshow.ExactlyOneCurrentDot | my-app/app/page.js:462-468 | exactly one dot is the current player's |
| Slideshow.FirstTruthy | my-app/app/page.js:125-130 | a fallback chain yields its first truthy candidate, or `None` exactly when none is truthy |
| Slideshow.TeamLogo | my-app/app/page.js:125-130 | `getTeamLogo` over a crest table; `TeamLogoIsFallbackChain` and `TeamLogoNullIff` state its result |
| Slideshow.TeamLogoIsFallbackChain | my-app/app/page.js:125-130 | for any crest table, the team logo is the first truthy of the club crest and the team image |
| Slideshow.TeamLogoNullIff | my-app/app/page.js:125-130 | for any crest table, there is no team logo exactly when no crest key is related to the club name and there is no team image |
| Slideshow.BandOf | my-app/app/page.js:137-144 | bands by interval: at least 90 green, 80-89 blue, 70-79 yellow, 60-69 orange, otherwise red; NaN is red |
| Slideshow.BandIsMonotone | my-app/app/page.js:139-143 | a higher stat never gets a lower band |
| Slideshow.BandColors | my-app/app/page.js:139-143 | the gradient stops of each band; `BandColorsDistinct` states that no two bands share them |
| Slideshow.BandColorsDistinct | my-app/app/page.js:139-143 | two bands have the same colours exactly when they are the same band |
| Slideshow.StatColors | my-app/app/page.js:137-144 | `getStatColors`: `parseInt(val || "0", 10)` and then the band's colours; `StatColorsOfNumber` states its result |
| Slideshow.StatColorsOfNumber | my-app/app/page.js:138 | a stat given as the spelling of a natural number gets that number's band colours; a missing stat is red |
| Slideshow.SlideshowState.constructor | my-app/app/page.js:20-24 | the initial state: no players, index 0, empty jump input, hidden |
| Slideshow.SlideshowState.CurrentPlayer | my-app/app/page.js:92 | the shown player is one of the players, the one at `index` when it is in range |
| Slideshow.SlideshowState.Load | my-app/app/page.js:27-81 | after a successful fetch the players are the merged (or unmerged) list and the index is 0; a failed fetch changes nothing |
| Slideshow.SlideshowState.Next | my-app/app/page.js:95-101 | the index becomes `NextIndex` of the old one and stays valid |
| Slideshow.SlideshowState.Prev | my-app/app/page.js:103-109 | the index becomes `PrevIndex` of the old one and stays valid |
| Slideshow.SlideshowState.ToggleJumpInput | my-app/app/page.js:240 | the jump input's visibility flips |
| Slideshow.SlideshowState.EditJumpInput | my-app/app/page.js:254 | the jump text becomes the typed text |
| Slideshow.SlideshowState.JumpToPlayerNumber | my-app/app/page.js:111-122 | for a parsed number in `[1, n]`: the index becomes that number less one, and the input is cleared and hidden; otherwise nothing changes |
| Slideshow.SlideshowState.SelectDot | my-app/app/page.js:472 | clicking a dot selects its player, and the index stays in range |

## Left out

- Rendering is not modelled: the JSX markup, Tailwind classes, `next/image`,
  `lucide-react` icons and `<style jsx>`. These are presentation. The "Loading players..."
  screen appears as a precondition: the navigation handlers require a non-empty player
  list.
- I/O is not modelled: `fetch`, `res.json()`, `Papa.parse` (with `dynamicTyping` and
  `transformHeader`), the async `useEffect` and `console` logging. `SlideshowState.Load`
  takes their outcome as parameters:
  - the fetched player list, `None` when players.json fails;
  - the parsed CSV rows, `None` when the CSV is missing or fails.
- The `playersData.players || playersData || []` shape check is not modelled. The model
  receives the player array itself.
- The 140 ms `setTimeout` delays and the `isTransitioning` flag are timing. Each handler is
  modelled by its net state change. Because the source uses functional `setIndex`
  updates, overlapping timers apply one after another, as the methods do.
- `disabled={players.length <= 1}` on the arrow buttons is not modelled. With one player,
  "next" and "prev" leave the index at 0 anyway.
- `nationLogo` and `headshot` (lines 133-134) are not modelled. They are plain
  `value || null` fallbacks used only for rendering.
- `StatCircle` (lines 146-151) is not modelled. Its percentage and dash lengths are
  floating-point arithmetic with `Math.PI`.
- `JsString.ToLowerCase`: maps only ASCII letters, not the full Unicode case mapping.
  - In `normalizeKey` this makes no difference, with one exception. Every non-ASCII
    character is removed by the `[^\w]` pass either way. The exception is a character
    whose lower-case form is ASCII (the Kelvin sign, or `İ`), which the source keeps and
    the model drops.
  - In the price merge the names only feed the discarded CSV match.
- `JsString.ParseInt`: returns an unbounded integer. It does not model double-precision
  rounding of very long digit strings, and it gives `-0` as 0. Neither changes any
  comparison the page makes.
- Non-string values are assumed to be strings or missing:
  - `String(s || "")` on other types;
  - JSON numbers such as a numeric `base_price` or a stat value (a stat is given by its
    decimal spelling, see `StatColorsOfNumber`);
  - CSV cells typed by `dynamicTyping`, modelled after `toString()`.
  - Consequently a numeric `base_price` of 0, which is falsy, is not modelled.
- Prototype-chain hits of `clubLogoMap[name]` (for example `"constructor"`) are not
  modelled. The property lookup sees only the table's own keys.
- `JsString.Trim`: its own contract states only that neither end of the result is
  whitespace. That only whitespace was cut off, and that the rest is kept in order, is
  stated by the contracts of `JsString.TrimStart` and `JsString.TrimEnd`, which `Trim`
  composes.
- `Slideshow.StatColorsOfNumber`: stated for stats spelled as natural numbers. A negative
  stat is covered only through `Slideshow.BandOf`, which maps it to red.
- `ClubLogoMap.KeyResolvesToItsValue`: takes distinct keys as a precondition.
  - An object literal may repeat a property name. The later value then wins, in the
    earlier name's position. A table of entries does not reproduce that rule.
  - The 51 keys of `ClubLogoTable` are distinct, which is seen by reading the table. The
    model does not prove it.
- `ClubLogoMap.EmptyNormalFormTakesFirstEntry`: requires that no key normalises to `""`.
  `EmptyNormalFormOverUpperKeys` meets this for any table whose keys start with an
  upper-case letter. `ClubLogoTableKeys` proves that of `ClubLogoTable`.
- Array-index-like keys (such as `"7"`) are not modelled. `Object.keys` lists them first,
  in numeric order, while a table keeps listing order. `ClubLogoTable` has none.
