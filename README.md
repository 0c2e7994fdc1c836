# Shoe card variant resolution

A Dafny model of how the storefront's product card (`ShoeCard`) picks its highlight badge.
The card chooses one of three variants:

- `on-sale` when the `salePrice` prop is a JavaScript number;
- otherwise `new-release` when the release-date test `isNewShoe` accepts `releaseDate`;
- otherwise `default`.

It then reads that variant's style record (badge text, CSS `display`, background colour) from the
constant `VARIANT_STYLES` object, and throws "unknown show card variant" when the read gives a
falsy value.

The model has two modules:

- `JsValues` (`js_values.dfy`) models the JavaScript values a prop can hold, what the `typeof`
  operator reports for each, and each value's truthiness (`ToBoolean`). So `0`, `NaN` and the
  infinities count as numbers. `null`, `undefined`, numeric strings and BigInts do not.
- `ShoeCard` (`shoe_card.dfy`) holds four kinds of thing:
  - the datatypes: the three variants, the style records and the card's props;
  - the style table, as the map of the object's own keys;
  - the property read `VARIANT_STYLES[key]` with JavaScript's ordinary-object semantics: own
    keys first, then the names every object literal inherits from `Object.prototype`, else
    `undefined`;
  - the guarded lookup, the resolver, and the lemmas about them.

The release-date test `isNewShoe` lives in a utility module that is not part of this model. It is
a parameter `JsValue -> bool`, and the clock reading "now" is folded into the function the caller
passes. The parameter has three consequences:

- The model assumes `isNewShoe` always returns and never throws.
- The `bool` is the truthiness the ternary at src/components/ShoeCard/ShoeCard.js:50 takes of
  its result.
- The code calls `isNewShoe` only when `salePrice` is not a number. A pure, total parameter
  cannot show whether the call happens, only that its answer is ignored on that path.

`VariantStylesTable` is the object literal at src/components/ShoeCard/ShoeCard.js:8-26, as the map
of its own keys. What it contains is stated by three contracts:

- `StyleOf`: all nine field values of the three records;
- `TableKeysAreTags`: that there are no other own keys;
- `GetProperty`: how a read reaches them.

Three consequences of the JavaScript semantics held in the model:

- The guard rejects only names that are neither own nor inherited. An inherited name such as
  `toString`, `constructor` or `__proto__` reads as a truthy function or object and passes it
  (`LookupVariantStyles`, `UnknownKeysFail`). The resolver never produces such a name.
- The recency test lives entirely inside `isNewShoe`. No day window is fixed.
- `salePrice` may hold any value. Only its `typeof` is tested, so the model takes any `JsValue`,
  and so do all the other props.

## Model

| member | source | states |
|---|---|---|
| `JsValues.TypeOf` | src/components/ShoeCard/ShoeCard.js:48 | `typeof v` is `"number"` exactly when `v` is a number (zero, NaN and the infinities included). It is `"undefined"` exactly for `undefined` and `"object"` exactly for `null` or a plain object. The result is always one of the eight `typeof` strings. |
| `JsValues.ToBoolean` | src/components/ShoeCard/ShoeCard.js:55 | JavaScript truthiness as `!variantStyles` applies it. `undefined` and `null` are falsy, and every object, function and symbol is truthy. A number is truthy exactly when it is non-zero and not NaN. A string is truthy exactly when it is non-empty. |
| `ShoeCard.Tag` | src/components/ShoeCard/ShoeCard.js:49-52 | The strings `on-sale`, `new-release` and `default` that the resolver yields. Each one is an own key of `VARIANT_STYLES`. `TableKeysAreTags` and `VariantsAreDistinguished` state that no other key exists and that no two variants share a tag. |
| `ShoeCard.IsTruthy` | src/components/ShoeCard/ShoeCard.js:55 | The guard's truthiness test applied to a property read, through `ToBoolean` of the JavaScript value the read yields. A read is truthy exactly when it is not `undefined`: an own record or an inherited member. |
| `ShoeCard.PropertyValue` | src/components/ShoeCard/ShoeCard.js:54 | The JavaScript value `variantStyles` holds after the read. It is `undefined` exactly when the key is missing. An own record is an object. An inherited member is a function, except `__proto__`, which gives the prototype object. |
| `ShoeCard.GetProperty` | src/components/ShoeCard/ShoeCard.js:8-54 | Reading `VARIANT_STYLES[key]` gives the table's own record exactly when `key` is one of its own keys. It gives an inherited `Object.prototype` member exactly when the key is not own but is inherited. Otherwise it gives `undefined`. |
| `ShoeCard.LookupVariantStyles` | src/components/ShoeCard/ShoeCard.js:54-57 | The guarded lookup fails with `UnknownVariant` exactly when the key is neither own nor inherited. For an own key it returns that key's record, and never a default substitute. Any value it returns is truthy. |
| `ShoeCard.SelectVariant` | src/components/ShoeCard/ShoeCard.js:42-52 | The variant is `OnSale` exactly when `salePrice` is a number. It is `NewRelease` exactly when `salePrice` is not a number and `isNewShoe(releaseDate)` holds. It is `Default` exactly when neither holds. Its tag is always a key of the table. |
| `ShoeCard.StyleOf` | src/components/ShoeCard/ShoeCard.js:8-26 | Only the `default` record is hidden (`display` `none`), and its text is empty on a `transparent` background. Both other variants use `display` `revert` with non-empty text. On-sale shows `Sale` on palette entry `primary`. New-release shows `Just Released!` on palette entry `secondary`. |
| `ShoeCard.CardVariantStyles` | src/components/ShoeCard/ShoeCard.js:48-57 | For every set of props and every release-date test, the card's lookup succeeds: the throw never fires. The value it holds is the own style record of the selected variant. |
| `ShoeCard.TableKeysAreTags` | src/components/ShoeCard/ShoeCard.js:8-26 | A string is an own key of `VARIANT_STYLES` exactly when it is the tag of one of the three variants. So the table has no stray entry and no variant lacks one. |
| `ShoeCard.VariantsAreDistinguished` | src/components/ShoeCard/ShoeCard.js:8-26 | Two variants have the same tag only when they are the same variant. Two variants have the same style record only when they are the same variant. |
| `ShoeCard.SaleBeatsNewRelease` | src/components/ShoeCard/ShoeCard.js:42-49 | A number `salePrice` yields `OnSale` whatever the release-date test returns. |
| `ShoeCard.VariantDependsOnlyOnSaleAndRelease` | src/components/ShoeCard/ShoeCard.js:28-52 | Two cards get the same variant when their two inputs agree: whether `salePrice` is a number, and the release-date test's verdict. Price, colour count, slug, name and image play no part. |
| `ShoeCard.EveryVariantReachable` | src/components/ShoeCard/ShoeCard.js:37-52 | Suppose the release-date test accepts some date and rejects another. Then for every variant there are props that select it, so no table record is dead. |
| `ShoeCard.UnknownKeysFail` | src/components/ShoeCard/ShoeCard.js:54-57 | Take a key that is not a variant tag. If it is not an `Object.prototype` name, the lookup fails with `UnknownVariant` and does not fall back to the default style. If it is such a name, the lookup returns the inherited member. |

## Left out

- JSX markup and styled-components CSS (src/components/ShoeCard/ShoeCard.js:59-133): presentation only, with no decision in it. The badge's CSS custom properties are not modelled.
- The `--position` custom property (src/components/ShoeCard/ShoeCard.js:65): no table record defines `position`, so it is always `undefined`. It is a styling detail.
- The unused `SalePrice` styled component (src/components/ShoeCard/ShoeCard.js:130-133): it is never rendered.
- `formatPrice`, `pluralize` and `isNewShoe`: the utility module that defines them is not part of this model. `isNewShoe` is a total `JsValue -> bool` parameter with the consequences stated above. Its clock reading, date arithmetic and any exception it might throw are not modelled.
- The values of `COLORS.primary` and `COLORS.secondary`: the constants module is not part of this model. A background is written as the palette entry's name.
- JavaScript numbers are reduced to finite (as a real), NaN and the two infinities. Rounding to double precision is not modelled. Negative zero is the finite zero, which behaves like positive zero for both `typeof` and truthiness.
- What the card renders after an inherited `Object.prototype` member passes the guard. The resolver cannot produce such a key.
- The model assumes `Object.prototype` is unmodified: it holds exactly the standard names of sections 20.1.3 and B.2.2 of ECMAScript 2023. A polyfill or library that added a property there would make that name pass the guard too.
- `SuperHeader` (src/components/SuperHeader/SuperHeader.js): static marketing copy and child components, with no decisions.
