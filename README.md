# Leaflet coordinate converter: a Dafny model

This project models the coordinate converter behind a Leaflet plugin. The converter
moves points among three planar coordinate systems used by Chinese map providers:

- GPS84 (WGS84, raw GPS);
- GCJ02 (the obfuscated "Mars" system);
- BD09 (Baidu's offset on top of GCJ02).

It has two parts:

- **Six single-point conversions.**
  - `gps84ToGcj02` adds an empirical correction. It is built from two polynomials, `_transformLat` and `_transformLng`, and scaled by the Krasovsky ellipsoid.
  - `gcj02ToGps84` is the usual approximate inverse: twice the input minus the forward image of the input.
  - `gcj02ToBd09` and `bd09ToGcj02` are a polar distortion plus a fixed shift of (0.0065, 0.006), applied in mirror image.
  - `gps84ToBd09` and `bd09ToGps84` are compositions of the others.
- **`convertArray`.** It returns the input unchanged when both tags are equal. Otherwise it looks up the key `from_to` in a six-entry table, throws when the key is missing, and maps the chosen conversion over the points.

Files:

- `wrappers.dfy`: `Option` and `Result`.
- `geo.dfy` (module `Geo`):
  - points and the constructor's constants (`pi`, `a`, `ee`, `x_pi`, `R`);
  - `Math.abs`;
  - the division the conversions use;
  - `JsMath`, the record of `Math.sin`, `Math.cos`, `Math.sqrt` and `Math.atan2`. Every conversion takes it as a parameter. Every property below holds for any choice of those four functions, except where a lemma requires `WellBehaved`: there it holds for any well-behaved choice (sine and cosine in [-1, 1], positive square roots of positive numbers).
- `converter.dfy` (module `Converter`): the conversions, copied formula by formula, and their properties.
- `dispatch.dfy` (module `Dispatch`): the tags, the method table, the lookup, `convertArray` and the model of the JavaScript property read behind it.

The BD09 pair is sometimes described as an exact algebraic inverse. The code does not make it one: the forward step takes its correction terms at the GCJ02 point, and the backward step takes them at the shifted BD09 point. The model follows the code. What it proves is that the additive shift cancels exactly (`BdShiftCancels`), so any round-trip error lies in the polar step.

## Model

| member | source | states |
|---|---|---|
| `Geo.Abs` | src/CoordConverter.js:186 | `Math.abs` is non-negative and equal to the argument or to its negation. |
| `Geo.Quot` | src/CoordConverter.js:54-59 | The division of the scaling steps is exact division whenever the divisor is not zero; at zero the model's stand-in value is 0. |
| `Converter.TransformLatRipple` | src/CoordConverter.js:179-203 | For well-behaved sines, `_transformLat` is its polynomial and square-root part plus three sine families that together move it by at most 1160/3. |
| `Converter.TransformLngRipple` | src/CoordConverter.js:208-232 | For well-behaved sines, `_transformLng` is its polynomial and square-root part plus three sine families that together move it by at most 1100/3. |
| `Converter.DivisorsVanishOnlyWithCosine` | src/CoordConverter.js:50-59 | For well-behaved primitives the latitude divisor is positive. The longitude divisor is zero exactly when the cosine of the latitude in radians is zero. |
| `Converter.Gps84ToGcj02Scaling` | src/CoordConverter.js:47-66 | For well-behaved primitives, `gps84ToGcj02` adds `_transformLat(lng-105, lat-35)·180` divided by the latitude divisor to the latitude. It adds `_transformLng(...)·180` divided by the longitude divisor to the longitude wherever that divisor is defined. |
| `Converter.TransformIsGps84ToGcj02` | src/CoordConverter.js:155-174 | `_transform` computes exactly the same point as `gps84ToGcj02` for every input. |
| `Converter.Offset` | src/CoordConverter.js:48-61 | For any primitives, the offset `gps84ToGcj02` adds is `_transformLng(lng-105, lat-35)·180` over the longitude divisor and `_transformLat(lng-105, lat-35)·180` over the latitude divisor, each division going through the model's division. |
| `Converter.Gcj02ToGps84` | src/CoordConverter.js:74-82 | The result is `2·input − gps84ToGcj02(input)` in each coordinate: the input minus the offset that the forward conversion adds at the same point. |
| `Converter.GcjRoundTripError` | src/CoordConverter.js:74-82 | GCJ02→GPS84→GCJ02 misses the start by exactly (offset at the GPS84 estimate) − (offset at the start). |
| `Converter.GcjRoundTripExactIff` | src/CoordConverter.js:74-82 | That round trip returns the start exactly if and only if the offsets at the two points are equal. |
| `Converter.GpsRoundTripError` | src/CoordConverter.js:74-82 | GPS84→GCJ02→GPS84 misses the start by exactly (offset at the start) − (offset at its GCJ02 image). |
| `Converter.GpsRoundTripExactIff` | src/CoordConverter.js:74-82 | That round trip returns the start exactly if and only if the offsets at the point and at its image are equal. |
| `Converter.BdStepsMirror` | src/CoordConverter.js:90-121 | `gcj02ToBd09` is the polar step with + signs on the 2e-5·sin and 3e-6·cos terms, followed by adding (0.0065, 0.006). `bd09ToGcj02` subtracts (0.0065, 0.006) first and then applies the step with − signs. |
| `Converter.BdShiftCancels` | src/CoordConverter.js:90-121 | In GCJ02→BD09→GCJ02 the additive shift cancels exactly. The result is the backward polar step applied to the forward polar step. |
| `Converter.Gps84ToBd09Composes` | src/CoordConverter.js:35-39 | `gps84ToBd09(lng, lat)` is `gcj02ToBd09` applied to the fields of `gps84ToGcj02(lng, lat)`. |
| `Converter.Bd09ToGps84Composes` | src/CoordConverter.js:23-27 | `bd09ToGps84(lng, lat)` is `gcj02ToGps84` applied to the fields of `bd09ToGcj02(lng, lat)`. |
| `Dispatch.ParseType` | src/CoordConverter.d.ts:90 | The three tags `gps84`, `gcj02` and `bd09` are read back as their systems, and no other string names a system. |
| `Dispatch.MethodKey` | src/CoordConverter.js:142 | The key is the from-tag, one underscore, then the to-tag. |
| `Dispatch.KeySplitsUniquely` | src/CoordConverter.js:142 | Two underscore-free tags can be recovered from their key. |
| `Dispatch.KeyOfPair` | src/CoordConverter.js:133-140 | For every ordered pair of distinct systems, the key built from their tags is one of the literal keys of `methodMap`. It is bound to the method converting from the first system to the second. |
| `Dispatch.MethodMapEntries` | src/CoordConverter.js:133-140 | The table has one entry per ordered pair of distinct systems, bound to the method with that pair in its name, and no other entries. |
| `Dispatch.KeyInMethodMapIff` | src/CoordConverter.js:133-143 | `from_to` is a key of the table if and only if the two tags are distinct valid tags. The entry found converts from `from` to `to`. |
| `Dispatch.Lookup` | src/CoordConverter.js:142-145 | The lookup finds a method exactly for two distinct valid tags, and the method it finds is named by those tags. |
| `Dispatch.ApplyIsConvert` | src/CoordConverter.js:134-139 | Each bound method converts between two different systems, as its name says, and agrees with the reference conversion for that pair. |
| `Dispatch.UnsupportedMessage` | src/CoordConverter.js:146 | The error message is the fixed prefix, then `fromType`, then ` -> `, then `toType`: each of the four parts is pinned at its position. |
| `Dispatch.ConvertArrayFailureMessage` | src/CoordConverter.js:145-147 | Whenever `convertArray` fails, it throws the unsupported-conversion error, and that error's message is the fixed prefix, `fromType`, ` -> ` and `toType`. |
| `Dispatch.MapPoints` | src/CoordConverter.js:149 | The mapped batch has the input's length, and element i is the chosen method applied to `coords[i].lng, coords[i].lat`. |
| `Dispatch.ConvertArray` | src/CoordConverter.js:130-150 | Equal tags, valid or not and for any batch including the empty one, give the input back unchanged. It fails exactly when the tags differ and one of them is not a valid tag. The failure is the unsupported-conversion error naming both tags and carrying no points. On success the batch has the same length and order, and each point is converted by the reference conversion for the pair. |
| `Dispatch.ConvertArrayMatchesReference` | src/CoordConverter.js:130-150 | For any two of the three systems, `convertArray` succeeds and returns the reference conversion of each point, in order. |
| `Dispatch.BatchGps84ToBd09Composes` | src/CoordConverter.js:133-149 | Converting a batch GPS84→BD09 is the same as converting it GPS84→GCJ02 and then GCJ02→BD09. |
| `Dispatch.BatchBd09ToGps84Composes` | src/CoordConverter.js:133-149 | Converting a batch BD09→GPS84 is the same as converting it BD09→GCJ02 and then GCJ02→GPS84. |
| `Dispatch.OwnAndInheritedDisjoint` | src/CoordConverter.js:133-140 | No own key of `methodMap` is a name inherited from `Object.prototype`. |
| `Dispatch.GetProperty` | src/CoordConverter.js:143 | A property read on the object literal finds the own entry when there is one. Otherwise an inherited `Object.prototype` name reads as that inherited value, and any other key reads as nothing. |
| `Dispatch.ConvertArrayAsWritten` | src/CoordConverter.js:130-150 | For keys that are not inherited names, the code as written behaves exactly like `ConvertArray`. For an inherited name it returns an empty batch for an empty input and otherwise throws a TypeError. |
| `Dispatch.ReachableInheritedNames` | src/CoordConverter.js:142-143 | Only the five inherited names that contain an underscore can be produced as a key. |
| `Dispatch.AsWrittenAgreesOnDeclaredTypes` | src/CoordConverter.js:130-150 | For the three tags the type declarations allow, the code as written and the corrected lookup agree on every batch. |
| `Dispatch.ProtoKeyEscapesCheck` | src/CoordConverter.js:142-149 | For the unsupported pair (`_`, `proto__`), the code as written returns `[]` for an empty batch and throws a TypeError for a one-point batch. The corrected lookup raises the unsupported-conversion error in both cases. |

## Findings

| source | as written | input that shows it | evidently intended | confidence | as-written member | corrected member |
|---|---|---|---|---|---|---|
| src/CoordConverter.js:143-149 | `methodMap[methodKey]` reads a plain object literal, so it also finds the names the object inherits from `Object.prototype`. The `!convertMethod` test then passes for the key `__proto__` and for the four `__define…__`/`__lookup…__` helpers. | `convertArray([], "_", "proto__")` returns `[]`. `convertArray([{lng: 116.404, lat: 39.915}], "_", "proto__")` throws a TypeError ("convertMethod is not a function"). Neither throws the unsupported-conversion error. | Any pair outside the six keys throws the unsupported-conversion error before any point is converted, for example through an own-property check. | not executed; high (standard JavaScript property lookup) | `Dispatch.ConvertArrayAsWritten`, `Dispatch.ProtoKeyEscapesCheck` | `Dispatch.ConvertArray` |

## Left out

- Floating point: all arithmetic is exact arithmetic on `real`, so IEEE rounding and the order in which the source adds its terms are not modelled.
- `Math.sin`, `Math.cos`, `Math.sqrt` and `Math.atan2` are not modelled. They are a parameter of every conversion, and a few lemmas assume only that sine and cosine stay in [-1, 1] and that square roots of positive numbers are positive.
- `Math.PI` is the decimal 3.141592653589793. The double it stands for differs from it by less than 2e-16.
- `Geo.Quot`: a zero divisor yields 0, where JavaScript yields an infinity or NaN. `Converter.DivisorsVanishOnlyWithCosine` shows this can happen only where the cosine of the latitude is zero. The model has no infinities or NaN, so it also says nothing about non-finite inputs.
- Numeric accuracy claims are not stated: the size of the GCJ02 offset near Beijing, a 1e-5 bound on the GPS84↔GCJ02 round trip, and BD09 round-trip accuracy. They need real bounds on the trigonometric functions and on rounding. The exact error terms are proved instead (`GcjRoundTripError`, `GpsRoundTripError`, `BdShiftCancels`).
- `convertArray` is modelled on string tags and on points with numeric `lng` and `lat`. The model does not cover non-string tags, points missing a field (JavaScript would compute NaN), or sparse arrays.
- On equal tags the source returns the very same array object. The model returns an equal sequence; object identity and aliasing are not modelled.
- The text of the TypeError is engine-specific. The model records only which inherited key was called (`NotAFunction`).
- The Leaflet `GridLayer` overrides `_setZoomTransform` and `_getTiledPixelBounds`. They are pixel math and DOM transforms on Leaflet internals that only call `gps84ToGcj02` and `gps84ToBd09`.
- The global instance `L.coordConverter` and the `L.coordConvert` accessor: library registration only.
- The minified build in `dist/` (a copy of the same class), the TypeScript demo, and the type declarations. `detectCoordType` is declared there but has no implementation.
- `R` is defined as a constant but, as in the source, no conversion reads it.
