# Lab-2 validated entities in Dafny

This project models the two domain classes of the Lab-2 console application:

- `Product` (Product.cs) is a store product. It has five validated fields: name, SKU, quantity, price and minimum age.
  - Every successful property set bumps the `TimesEdited` counter.
  - `Total` is computed from the current fields.
  - `ApplyDiscountPercent` and `Restock` go through the setters.
- `BoardGame` (BoardGame.cs) is a board game.
  - Its title and genre are validated strings.
  - Its player range is paired: `MinPlayers <= MaxPlayers` is enforced against the other field.
  - Duration, age and price are range-checked.
  - `IsPartyGame` is a derived flag.
  - `PlayOnce` advances the `TimesPlayed` counter.

Each class is a Dafny `class` with the source's private fields and a `Valid()` invariant stating every field constraint. Each property setter is a method.

- A setter returns `Committed(changed)` or `Rejected(error)`. The error names the .NET exception the setter throws (`ArgumentNullException`, `ArgumentOutOfRangeException`, `ArgumentException`, `OverflowException`) and the property it concerns.
- A rejected set leaves every field as it was. This is stated in the method's `ensures` and framed by a field-granular `modifies` clause, so a setter can touch only its own field and, for `Product`, the counter.
- The `changed` flag stands for the console notification. It is set exactly when the two strings the source compares differ.
- The setters' helpers are pure functions: `RequireString`, `RequireRange`, `NormalizeName`, and the rounding of `Math.Round(_, 2, MidpointRounding.AwayFromZero)`.
- `IsSku` is a method with the source's two scanning loops, proved equal to a declarative predicate.

Modules:

- `Results`: `Option`, errors, setter outcomes.
- `Text`: `string.Trim` with the full `char.IsWhiteSpace` set, `ToUpperInvariant`, `IndexOf`.
- `Decimals`: a C# `decimal` as units times `10^-scale`, and half-away-from-zero rounding to hundredths.
- `Checks`: C#'s 32-bit `int`, the wrapping `++`, and the two `RequireRange` overloads.
- `Products`: the `Product` class.
- `BoardGames`: the `BoardGame` class.

A product price is stored as whole hundredths. This is exact, because the setter always rounds to two places. A board-game price is stored as the exact `Decimal` it was set to, because that setter does not round. I/O and clocks are not modelled. `Guid.NewGuid()` becomes the `id` constructor parameter.

## Model

| member | source | states |
|---|---|---|
| Text.IsWhiteSpace | Product.cs:110 | `char.IsWhiteSpace`: the code points U+0009..U+000D, U+0020, U+0085, U+00A0, U+1680, U+2000..U+200A, U+2028, U+2029, U+202F, U+205F and U+3000 |
| Text.IsLetter | Product.cs:142 | `char.IsLetter` on ASCII: a..z and A..Z only |
| Text.IsDigit | Product.cs:147 | `char.IsDigit` on ASCII: 0..9 only |
| Text.AllWhiteSpace | BoardGame.cs:120 | the white-space part of `string.IsNullOrWhiteSpace`: every character is white space, the empty string included |
| Text.CodeUnits | Product.cs:111 | a character takes two UTF-16 code units exactly when it lies above U+FFFF, otherwise one |
| Text.Utf16Length | Product.cs:111 | `string.Length` counts UTF-16 code units: between the number of characters and twice that, and 0 only for the empty string |
| Text.Utf16LengthPointwise | BoardGame.cs:123 | strings whose characters take the same code units position by position have the same `Length` |
| Text.Utf16LengthOfBmp | Product.cs:111 | without characters above U+FFFF, `Length` is the number of characters |
| Text.Trim | Product.cs:110 | the result has no white space at either end and is never longer than the input |
| Text.AllWhiteSpaceIffTrimEmpty | BoardGame.cs:120-122 | `Trim(s)` is empty exactly when every character of `s` is white space, which is what `string.IsNullOrWhiteSpace` tests |
| Text.TrimOfPadded | Product.cs:110 | trimming any white-space padding around an already trimmed string gives that string back |
| Text.TrimIdempotent | Product.cs:133 | trimming twice is trimming once, so `IsSku` re-trimming a trimmed value changes nothing |
| Text.TrimStartDropsWhiteSpace | Product.cs:110 | `TrimStart` keeps a suffix of its input and removes only white space |
| Text.TrimEndDropsWhiteSpace | Product.cs:110 | `TrimEnd` keeps a prefix of its input and removes only white space |
| Text.Upper | Product.cs:38 | `ToUpperInvariant` keeps the length and maps each character by `UpperChar` |
| Text.UpperChar | Product.cs:155 | a lower-case letter becomes its upper-case partner; any other character is kept |
| Text.UpperIdempotent | Product.cs:38 | upper-casing an upper-cased string changes nothing |
| Text.UpperKeepsUtf16Length | Product.cs:38 | upper-casing keeps `Length` |
| Text.UpperKeepsTrimmed | Product.cs:38 | upper-casing a trimmed string leaves it trimmed |
| Text.IndexOf | Product.cs:135 | the result is -1 or an index holding the character |
| Text.IndexOfIsFirst | Product.cs:135 | no earlier index holds the character; with -1, no index does |
| Text.IndexOfAt | Product.cs:135 | the first occurrence of the character is exactly what `IndexOf` returns |
| Decimals.RoundHalfAwayFromZero | Product.cs:64 | the result is within half a step of the exact quotient, and an exact tie goes away from zero |
| Decimals.RoundingIsUnique | Product.cs:64 | only one whole number rounds the quotient half away from zero |
| Decimals.RoundingWithin | Product.cs:60-64 | rounding a value between two whole bounds stays between those bounds |
| Decimals.ToCents | Product.cs:64 | the number of hundredths is the decimal rounded half away from zero to two places |
| Decimals.CentsWithin | Product.cs:60-64 | a range-checked price rounds into the same range |
| Decimals.CentsOfCents | Product.cs:91 | a value that already has two places is left unchanged by rounding |
| Checks.Increment | Product.cs:166-169 | `++` on an `int` adds one and wraps at the 32-bit maximum |
| Checks.RequireRange | Product.cs:116-121 | `Ok(value)`, unclamped, exactly when `min <= value <= max`; otherwise an out-of-range error for the property |
| Checks.RequireDecimalRange | Product.cs:123-128 | the same for a decimal against whole bounds, compared exactly |
| Products.RequireString | Product.cs:107-114 | null gives `ArgumentNullException`. Otherwise it succeeds exactly when the trimmed value's `Length`, in UTF-16 code units, is in range, and then returns the trimmed value. A bad length gives `ArgumentOutOfRangeException`. |
| Products.RequireStringOfPadded | Product.cs:107-114 | a white-space-padded value whose core has an allowed `Length` in UTF-16 code units comes back as its trimmed core |
| Products.AstralCharCountsTwice | Product.cs:110-111 | a single character above U+FFFF has `Length` 2, so it passes the name's minimum of 2 |
| Products.NormalizeName | Product.cs:152-156 | the length is kept, the first character is upper-cased and the rest is kept |
| Products.NormalizeKeepsUtf16Length | Product.cs:152-156 | normalising keeps `Length` |
| Products.NameOk | Product.cs:22-23 | the stored-name invariant: trimmed, `Length` 2..60, not starting with a lower-case letter |
| Products.NormalizedNameOk | Product.cs:22-23 | a trimmed value with `Length` 2..60, once normalised, is a valid stored name |
| Products.NameOkIsNormal | Product.cs:152-156 | normalising a stored name changes nothing |
| Products.IsSku | Product.cs:130-150 | the two loops return true exactly when the trimmed value has the SKU pattern. The pattern is at least five characters, with a first dash at neither end, only letters before the dash and only digits after it. |
| Products.MatchesSkuPattern | Product.cs:133-149 | the pattern `IsSku` accepts, applied to the trimmed value |
| Products.SkuShape | Product.cs:134-149 | at least five characters, first dash at neither end, only letters before it and only digits after it |
| Products.JoinedSkuShape | Product.cs:134-149 | letters, a dash and digits, at least five characters long, always have the SKU shape |
| Products.SkuFromParts | Product.cs:133-149 | such a string passes the SKU check whatever white space surrounds it |
| Products.AstralNeverSku | Product.cs:139-148 | a value holding a character above U+FFFF never passes `IsSku`, because a surrogate is neither a letter, a digit nor the dash |
| Products.UpperKeepsSku | Product.cs:38 | upper-casing keeps the first dash in place, the letters letters and the digits digits |
| Products.SkuOk | Product.cs:35-38 | the stored-SKU invariant: trimmed, `Length` 3..20, SKU-shaped, no lower case |
| Products.StoredSkuOk | Product.cs:35-38 | an accepted SKU, once upper-cased, is a valid stored SKU: trimmed, `Length` 3..20, SKU-shaped, with no lower case |
| Products.Discounted | Product.cs:91 | for a non-negative price and a percent in 0..100, the discounted price is between 0 and the price; with 0 percent it is the price |
| Products.DiscountBounds | Product.cs:89-91 | the rounded discount never goes negative or above the old price, and equals it at 0 percent |
| Products.DiscountedRounds | Product.cs:91 | `Discounted` is `price * (100 - percent) / 100` rounded half away from zero, and it is the only such whole number of hundredths |
| Products.DefaultNameOk | Product.cs:9 | the default name "Без назви" is a valid stored name |
| Products.DefaultSkuShape | Product.cs:10 | the default SKU "SKU-0000" has the SKU shape |
| Products.DefaultSkuOk | Product.cs:10 | the default SKU is a valid stored SKU |
| Products.Product.Valid | Product.cs:9-79 | every validated field within its setter's bounds: name and SKU invariants, quantity 0..100000, price 0..1000000 in hundredths, minimum age 0..21 |
| Products.Product.constructor | Product.cs:9-15 | the initial fields are the source's defaults, they satisfy `Valid()`, and the counter starts at 0 |
| Products.Product.Total | Product.cs:81 | computed from the current price and quantity, never stored; within bounds when the object is valid |
| Products.Product.TouchEdited | Product.cs:166-169 | the counter moves by exactly one step of `++` and nothing else changes |
| Products.Product.SetName | Product.cs:17-28 | commits exactly when a value is given and its trimmed `Length` is 2..60 UTF-16 code units. It stores the normalised trimmed value and counts one edit. A rejection changes nothing and names the exception. |
| Products.Product.SetSku | Product.cs:30-41 | commits exactly when the trimmed `Length` is 3..20 and the value has the SKU pattern. It stores the value upper-cased and counts one edit. `changed` compares the old SKU with the value before upper-casing. A rejection changes nothing and distinguishes null, length and pattern errors. |
| Products.Product.StoreName | Product.cs:23-26 | stores the normalised name, counts one edit and keeps `Valid()` |
| Products.Product.StoreSku | Product.cs:38-39 | stores the upper-cased SKU, counts one edit and keeps `Valid()` |
| Products.Product.SetQuantity | Product.cs:43-53 | commits exactly for 0..100000, storing the value and counting one edit; a rejection changes nothing |
| Products.Product.SetPrice | Product.cs:55-67 | commits exactly when the exact value is in 0..1000000. It stores the value rounded half away from zero to hundredths and counts one edit; a rejection changes nothing. |
| Products.Product.SetMinAge | Product.cs:69-79 | commits exactly for 0..21, storing the value and counting one edit; a rejection changes nothing |
| Products.Product.SetCategory | Product.cs:15 | stores any value, leaves the counter alone and keeps `Valid()` |
| Products.Product.ApplyDiscountPercent | Product.cs:87-92 | commits exactly for a percent in 0..90. The price becomes the rounded discount, never higher, unchanged at 0 percent, and one edit is counted. Otherwise nothing changes. |
| Products.Product.Restock | Product.cs:94-98 | commits exactly when `add > 0` and the new quantity is at most 100000. Quantity then grows by exactly `add`, `Total` by `price * add`, and one edit is counted. Otherwise nothing changes, and the error says which check failed, including the `checked` overflow. |
| BoardGames.RequireString | BoardGame.cs:118-126 | null or all-white-space gives `ArgumentException`. Otherwise it succeeds exactly when the trimmed `Length`, in UTF-16 code units, is in range, and then returns the non-empty trimmed value. A bad length gives `ArgumentOutOfRangeException`. |
| BoardGames.RequireStringOfPadded | BoardGame.cs:118-126 | a padded non-blank value whose core has an allowed `Length` in UTF-16 code units comes back as its trimmed core |
| BoardGames.TextOk | BoardGame.cs:30-43 | a stored title or genre: trimmed, `Length` from 2 to its maximum |
| BoardGames.BoardGame.Valid | BoardGame.cs:9-104 | title (`Length` 2..60) and genre (2..40) trimmed, 1 <= minPlayers <= maxPlayers <= 20, duration 5..600, minimum age 3..21, price 0..10000 |
| BoardGames.BoardGame.IsPartyGame | BoardGame.cs:19 | holds exactly when `maxPlayers >= 6 && durationMinutes <= 45` over the current fields; never stored |
| BoardGames.BoardGame.constructor | BoardGame.cs:9-23 | the initial fields are the defaults: players 1..4, 30 minutes, age 8, price 0, no publisher. They satisfy `Valid()` and make no party game. |
| BoardGames.BoardGame.SetTitle | BoardGame.cs:25-34 | commits exactly for a non-blank value with trimmed `Length` 2..60 UTF-16 code units, storing it trimmed and uncapitalised; otherwise the title is unchanged and the error names the check |
| BoardGames.BoardGame.SetGenre | BoardGame.cs:36-45 | commits exactly for a non-blank value with trimmed `Length` 2..40 UTF-16 code units, storing it trimmed; otherwise the genre is unchanged |
| BoardGames.BoardGame.SetMinPlayers | BoardGame.cs:47-58 | commits exactly for 1..20 and at most the current maximum, so `minPlayers <= maxPlayers` is kept. Otherwise it is unchanged. `IsPartyGame` never moves. |
| BoardGames.BoardGame.SetMaxPlayers | BoardGame.cs:60-71 | commits exactly for 1..20 and at least the current minimum. `IsPartyGame` then holds iff the new maximum is at least 6 and the duration at most 45. Otherwise it is unchanged. |
| BoardGames.BoardGame.SetDurationMinutes | BoardGame.cs:73-82 | commits exactly for 5..600. `IsPartyGame` then follows the new duration. |
| BoardGames.BoardGame.SetMinAge | BoardGame.cs:84-93 | commits exactly for 3..21; otherwise it is unchanged |
| BoardGames.BoardGame.SetPrice | BoardGame.cs:95-104 | commits exactly for an exact value in 0..10000 and stores it unrounded. `changed` compares both prices formatted to two places. |
| BoardGames.BoardGame.SetPublisher | BoardGame.cs:17 | stores any value, null included, and keeps `Valid()` |
| BoardGames.BoardGame.PlayOnce | BoardGame.cs:106-109 | `TimesPlayed` moves by exactly one step of `++`; no other field can change, so `Valid()` and `IsPartyGame` are kept |

## Left out

- Program.cs is not part of this model. It is the console menu, the input-retry helpers and the coloured output, all I/O.
- The console output of `NotifyChange` and `NotifyIfChanged`: only the "changed" decision is modelled, as the `changed` flag.
- `ShortInfo` on both classes is string formatting of the fields, so it is not modelled.
- `Guid.NewGuid()` is randomness, so `Id` is an immutable constructor parameter.
- `char.IsLetter`, `char.IsDigit` and `ToUpperInvariant` are modelled on ASCII only. A non-ASCII letter such as Cyrillic is treated as neither a letter nor a lower-case letter. So `NormalizeName` and the SKU upper-casing leave it as it is, and `IsSku` rejects it. `char.IsWhiteSpace` is modelled with its full code-point list.
- A .NET string is a sequence of UTF-16 code units, and it may hold an unpaired surrogate. A Dafny string is a sequence of Unicode scalar values, so a lone surrogate cannot be represented. A character above U+FFFF is one character whose `Length` is counted as 2 by `Utf16Length`.
- `SkuShape` counts characters, not code units, for the five-character minimum and the dash position. The two counts differ only when a character above U+FFFF is present, and then both reject the value (`AstralNeverSku`).
- The `s == null` guard in `IsSku` (Product.cs:132) is unreachable from the `Sku` setter, which passes a non-null trimmed string. The model's `IsSku` therefore takes a string.
- The 96-bit mantissa and 28-digit scale limits of `decimal` are not modelled: units and scale are unbounded. Inside the checked ranges no decimal operation of the source overflows.
- Checks.Increment: `TimesEdited` and `TimesPlayed` use unchecked `++`, so the model wraps after 2^31 - 1 increments instead of growing forever.
- Decimals.Pow10Add and Products.TotalBound are arithmetic helpers (the power law and a bound on a product), so they get no row of their own.
- Products.Product.Total: its contract states the bound, not the equality with `price * quantity`, which is its whole body. `Restock` states how `Total` moves.
- `Category` and `Publisher` are unvalidated auto-properties. Category is a non-null string, because its C# type is non-nullable. Publisher is an `Option`, because it may be null.
- Products.Product.SetSku: the `changed` flag compares the stored upper-case SKU with the value before upper-casing (Product.cs:37). So re-setting the same SKU in lower case reports a change, as the source does.
- BoardGames.BoardGame.SetPrice: `changed` uses the two-place rounding of the `"0.00"` format, which .NET applies half away from zero.
