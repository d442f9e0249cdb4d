# Photographer grouping of the Pexels photos screen

The photos screen shows the current search results grouped by photographer.
`getMapPhotographerPhotos` walks the list of `Photo` results once, by index.
It fills an insertion-ordered `MutableMap<String, MutableList<String>>`
from photographer name to photo URLs:

- a photographer seen for the first time gets a new one-element list;
- a photographer seen before gets the URL appended to their list.

`PhotosScreen` then turns the map's keys, in iteration order, into a list of
`UniquePhotographer(name, map[name])`. `PhotographerThing` looks up one
photographer in that list with a `forEach` that keeps overwriting its result,
so it yields the last entry with that name, or `null`.

The project has three modules:

- `Wrappers` (`wrappers.dfy`): `Option`, for Kotlin's nullable types.
- `PhotoSpec` (`photo_spec.dfy`): the records and pure definitions of what
  the screen must compute, with the lemmas about them:
  - `UrlsBy(rs, p)`: the input restricted to photographer `p`, in input order.
  - `FirstAppearances(rs)`: photographers in order of first appearance.
  - `Grouped(rs)`: the grouping as a map.
  - `LastMatch(list, name)`: the last entry with that name.
- `PhotosScreen` (`photos_screen.dfy`): the imperative code, proved against
  those definitions. It holds:
  - the class `PhotographerMap`, the insertion-ordered map. Its `order` is the
    key iteration order and its `entries` the key-value pairs;
  - the grouping loop;
  - the loop that builds the `UniquePhotographer` list;
  - the lookup loop.

The input list is a Dafny `seq`, a value, so the grouping cannot modify it.

## Model

| member | source | states |
|---|---|---|
| `PhotosScreen.PhotographerMap.constructor` | app/src/main/java/com/eati/pexels/presentation/PhotosScreen.kt:88 | `mutableMapOf()` starts with no keys and no entries |
| `PhotosScreen.PhotographerMap.Get` | app/src/main/java/com/eati/pexels/presentation/PhotosScreen.kt:91 | `get` returns the stored list exactly when the key is present, and null otherwise |
| `PhotosScreen.PhotographerMap.Put` | app/src/main/java/com/eati/pexels/presentation/PhotosScreen.kt:93-97 | `put` and indexed assignment change only the given key. A new key goes to the end of the iteration order; an existing key keeps its place. The map invariant (distinct keys, order and entries agree) is kept |
| `PhotosScreen.GetMapPhotographerPhotos` | app/src/main/java/com/eati/pexels/presentation/PhotosScreen.kt:86-101 | the loop over `0..size-1` returns a fresh map. Its iteration order is the photographers in first-appearance order, and its entries are exactly the grouping `Grouped(results)` (each photographer's URLs in input order) |
| `PhotosScreen.BuildUniquePhotographers` | app/src/main/java/com/eati/pexels/presentation/PhotosScreen.kt:37-40 | one `UniquePhotographer` per key, in the map's iteration order. Each `photos` is the non-null `map[key]` |
| `PhotosScreen.BuildPhotographersRow` | app/src/main/java/com/eati/pexels/presentation/PhotosScreen.kt:34-40 | the list handed to the photographers row has one entry per photographer, in first-appearance order, holding that photographer's URLs in input order |
| `PhotosScreen.FindPhotographer` | app/src/main/java/com/eati/pexels/presentation/PhotosScreen.kt:144-148 | the `forEach` that overwrites `name` yields `LastMatch`: the last entry with that name, or null |
| `PhotoSpec.GroupingStep` | app/src/main/java/com/eati/pexels/presentation/PhotosScreen.kt:89-98 | record `i` either starts a one-element group for a new photographer (added last to the key order) or appends its URL to an existing group. Nothing else in the map changes |
| `PhotoSpec.GroupsOfSnoc` | app/src/main/java/com/eati/pexels/presentation/PhotosScreen.kt:92-98 | after one more record, every other photographer's group is unchanged |
| `PhotoSpec.GroupedSnoc` | app/src/main/java/com/eati/pexels/presentation/PhotosScreen.kt:92-97 | the grouping map of a longer input is the old map with only the new record's group updated |
| `PhotoSpec.GroupingPartitionsUrls` | app/src/main/java/com/eati/pexels/presentation/PhotosScreen.kt:89-98 | no photo is dropped or duplicated. The groups, concatenated in key order, are a permutation of the input URLs, so their sizes add up to `results.size` |
| `PhotoSpec.UrlsByAppend` | app/src/main/java/com/eati/pexels/presentation/PhotosScreen.kt:90-97 | group order follows input order. The group of a concatenated input is the concatenation of the groups |
| `PhotoSpec.UrlsByMembers` | app/src/main/java/com/eati/pexels/presentation/PhotosScreen.kt:90-97 | a URL is in `p`'s group if and only if some input record has photographer `p` and that URL |
| `PhotoSpec.UrlsByEmptyIff` | app/src/main/java/com/eati/pexels/presentation/PhotosScreen.kt:92-94 | no empty groups. A photographer's group is empty if and only if the photographer does not occur in the input |
| `PhotoSpec.FirstAppearancesKeys` | app/src/main/java/com/eati/pexels/presentation/PhotosScreen.kt:90-94 | the keys are exactly the photographers present, each once |
| `PhotoSpec.FirstAppearancesOrdered` | app/src/main/java/com/eati/pexels/presentation/PhotosScreen.kt:88-94 | the key order is strictly increasing in each photographer's first index in the input (insertion-ordered map) |
| `PhotoSpec.GroupingOfEmpty` | app/src/main/java/com/eati/pexels/presentation/PhotosScreen.kt:87-89 | empty input gives an empty map and no keys, because `0..-1` is an empty range |
| `PhotoSpec.GroupingExample` | app/src/main/java/com/eati/pexels/presentation/PhotosScreen.kt:86-101 | the input A/u1, B/u2, A/u3 groups to A → [u1, u3], B → [u2], with keys A, B |
| `PhotoSpec.LastMatchNone` | app/src/main/java/com/eati/pexels/presentation/PhotosScreen.kt:144-148 | the lookup gives null if and only if no entry has the name |
| `PhotoSpec.LastMatchAt` | app/src/main/java/com/eati/pexels/presentation/PhotosScreen.kt:144-148 | the lookup gives the entry at the last index whose name equals the argument, because every later match overwrites an earlier one |
| `PhotoSpec.UniqueNamesLookup` | app/src/main/java/com/eati/pexels/presentation/PhotosScreen.kt:144-148 | when names are distinct, the lookup returns the unique entry with that name |
| `PhotoSpec.ShownListHasPhotos` | app/src/main/java/com/eati/pexels/presentation/PhotosScreen.kt:37-40 | every `UniquePhotographer` built from the map has a non-null, non-empty `photos` |
| `PhotoSpec.ShownListOrdered` | app/src/main/java/com/eati/pexels/presentation/PhotosScreen.kt:37-40 | the `UniquePhotographer` list is ordered by each photographer's first appearance in the input |
| `PhotoSpec.ShownListLookup` | app/src/main/java/com/eati/pexels/presentation/PhotosScreen.kt:144-148 | on the list built from the grouping, looking up a name gives that photographer's full group if they occur in the input, and null otherwise |

## Left out

- Compose UI and rendering: `SearchBar`, `PhotographersRow`, `showPhotos`, `AsyncImage`, icons, layout and styling. These are view code with no logic to state.
- The `Photos` composable: its body is empty.
- The UI state kept with `remember`/`mutableStateOf`: the `isSelected` toggle and the search `input`. The framework manages this recomposition state.
- `PhotosViewModel`, `photosFlow.collectAsState()` and `updateResults`: the reactive stream and the asynchronous search request. The view model is not part of this model. Liked/expanded toggles and last-query-wins handling of searches have no code in `PhotosScreen.kt`, so they are not modelled.
- `Photo`: only `photographer` and `photoUrl` are modelled. The grouping reads no other field.
- PhotosScreen.GetMapPhotographerPhotos: it does not model aliasing of the `MutableList` stored in the map. Line 96 appends to the list object already in the map; the model appends to a value and stores it back, as line 97 does.
- PhotosScreen.GetMapPhotographerPhotos: it does not model the 32-bit `Int` bound on `results.size`. Indices are unbounded integers.
- Kotlin `String.equals` is modelled as equality of `seq<char>`.
