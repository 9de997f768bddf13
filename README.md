# Pricing catalogue handler — verified model

A Dafny model of the admin pricing handler of sub2api
(`backend/internal/handler/admin/pricing_handler.go`):

- **The catalogue listing** (`ListPricing`). The billing service's map from model name to
  pricing record is enumerated in Go's unspecified map order. Every entry's provider is
  recorded. Entries are kept when they pass the `search` and `provider` filters; both
  query parameters are trimmed and lower-cased, and an empty one is off. The kept rows are
  sorted in place by (provider, model). The response carries the rows, their count, and the
  sorted list of every non-empty provider in the whole map, whatever the filters.
- **The request guards.** `LookupModel` rejects a `model` parameter that is blank after
  trimming. `UploadPricing` rejects a missing file, then a file over 50 MiB, then a file
  whose lower-cased name does not end in `.json`.

Modules:

- `GoStrings` (`go_strings.dfy`) models the Go string operations the handler uses.
  `strings.TrimSpace` strips exactly the characters `unicode.IsSpace` accepts.
  `strings.ToLower` is modelled for ASCII letters. `strings.Contains` and `strings.HasSuffix`
  are modelled in full. Go's `<` on strings is lexicographic order, with proofs that it is
  irreflexive, transitive and total. Strings are sequences of code points. Go compares the
  UTF-8 bytes, and UTF-8 keeps code point order, so the two orders agree.
- `Ordering` (`ordering.dfy`) holds what `sort.Slice`/`sort.Strings` need and give:
  - strict weak orders;
  - `SortSlice`, an in-place sort of an array by a caller's less function, proved sorted
    and a permutation of its input;
  - the fact that a strictly sorted sequence is determined by its elements.
- `PricingList` (`pricing_list.dfy`) models the listing. `ListPricing` is a method. A loop
  over the remaining map keys picks the next key nondeterministically, so every Go
  iteration order is covered. Rows are sorted in an array, and the providers set is turned
  into a sorted list. `IsListing`/`IsProviderList` state what the results must be. The
  lemmas prove that these results are unique, so the output does not depend on the
  enumeration order.
- `PricingGuards` (`pricing_guards.dfy`) models the lookup and upload guards as functions
  returning a `Result` whose error variant names the rejection.
- `Wrappers` (`wrappers.dfy`) holds `Option` and `Result`.

## Model

| member | source | states |
|---|---|---|
| `PricingList.ListPricing` | backend/internal/handler/admin/pricing_handler.go:43-98 | Every listed row is the unchanged row of a map entry whose lower-cased model or provider contains the normalised search and whose lower-cased provider equals the normalised provider (each test off when its query is empty). Every such entry is listed. Rows are strictly ascending by (provider, model). `total` is the number of rows. `providers` holds exactly the non-empty providers of the whole map, strictly ascending, with no dependence on the filters |
| `PricingList.ToItem` | backend/internal/handler/admin/pricing_handler.go:63-75 | A row carries its model key and its pricing record unchanged: the record can be read back from the row |
| `PricingList.Normalize` | backend/internal/handler/admin/pricing_handler.go:44-45 | A normalised query is no longer than the parameter, has no upper-case ASCII letter, and is empty exactly when the parameter is blank, which switches that filter off. Character by character it is the trimmed parameter lower-cased |
| `PricingList.Matches` | backend/internal/handler/admin/pricing_handler.go:55-61 | An entry passes exactly when the search is empty or occurs in its lower-cased model or lower-cased provider, and the provider query is empty or equals its lower-cased provider. In particular, with both queries empty every entry passes. A kept entry with a non-empty search has the search text occurring in its lower-cased model or lower-cased provider. A kept entry with a non-empty provider query has a lower-cased provider equal to it |
| `PricingList.ItemLess` | backend/internal/handler/admin/pricing_handler.go:79-82 | Rows are ordered lexicographically on the pair (provider, model), and a row sorts before another only when their (provider, model) pairs differ |
| `PricingList.CollectEntries` | backend/internal/handler/admin/pricing_handler.go:52-76 | The map loop, for any enumeration order: it keeps exactly the filtered entries, each once, as unchanged rows, and it records the provider of every entry, filtered or not |
| `PricingList.SortItems` | backend/internal/handler/admin/pricing_handler.go:78-83 | The sorted rows are a permutation of the collected rows, ordered by provider and then by model |
| `PricingList.ProviderList` | backend/internal/handler/admin/pricing_handler.go:85-91 | The provider list holds exactly the non-empty recorded providers, strictly ascending, so with no duplicates and no empty string |
| `PricingList.SortedListing` | backend/internal/handler/admin/pricing_handler.go:78-83 | Sorting the sound, complete, duplicate-free collected rows yields a listing whose rows are strictly ascending |
| `PricingList.SortedListingIsStrict` | backend/internal/handler/admin/pricing_handler.go:78-83 | Sorted rows taken from the map without repetition are strictly ascending, because model names are unique keys |
| `PricingList.ListingDeterministic` | backend/internal/handler/admin/pricing_handler.go:52-83 | Two results meeting the listing contract for the same map and queries are identical, so the rows do not depend on map iteration order |
| `PricingList.ProviderListDeterministic` | backend/internal/handler/admin/pricing_handler.go:85-91 | The provider list is determined by the map alone |
| `PricingList.ListingLength` | backend/internal/handler/admin/pricing_handler.go:93-96 | No model appears in two rows, and `total` (the row count) equals the number of map entries the filter keeps |
| `PricingList.UnfilteredListing` | backend/internal/handler/admin/pricing_handler.go:55-61 | With both queries empty, every map entry is listed and the row count equals the map size |
| `PricingList.ItemLessIsStrictWeakOrder` | backend/internal/handler/admin/pricing_handler.go:78-83 | The (provider, model) comparator is irreflexive, transitive and has transitive incomparability, as `sort.Slice` requires |
| `PricingList.ItemLessTotal` | backend/internal/handler/admin/pricing_handler.go:78-83 | Of two rows, one sorts before the other unless they share provider and model |
| `PricingList.StrLessIsStrictWeakOrder` | backend/internal/handler/admin/pricing_handler.go:91 | Go's string order is a strict weak order, as `sort.Strings` needs |
| `Ordering.SortSlice` | backend/internal/handler/admin/pricing_handler.go:78-83 | In-place sort of a slice by a strict weak order: the result is sorted and a permutation of the input |
| `Ordering.StrictlySortedUnique` | backend/internal/handler/admin/pricing_handler.go:78-83 | Two strictly sorted sequences with the same elements are equal |
| `Ordering.NoDuplicatesPermutation` | backend/internal/handler/admin/pricing_handler.go:78-83 | Sorting in place cannot create duplicates: a permutation of a duplicate-free sequence is duplicate-free |
| `GoStrings.TrimSpace` | backend/internal/handler/admin/pricing_handler.go:44-45 | The result is the input with its leading and trailing white space cut, and nothing else. It neither starts nor ends with white space, and it is empty exactly when the input is blank |
| `GoStrings.Contains` | backend/internal/handler/admin/pricing_handler.go:55-56 | True exactly when the substring occurs at some position, the empty substring included |
| `GoStrings.StrLess` | backend/internal/handler/admin/pricing_handler.go:79-82 | A proper prefix sorts before the longer string, and no string sorts before one of its own prefixes, itself included |
| `GoStrings.StrLessAtFirstDifference` | backend/internal/handler/admin/pricing_handler.go:79-82 | For two strings that agree up to position k and differ there, the first is less exactly when its character at k is smaller: Go's lexicographic rule, so "ab" sorts before "b" |
| `GoStrings.LowerChar` | backend/internal/handler/admin/pricing_handler.go:172 | The result is never an upper-case ASCII letter. An upper-case letter becomes the small letter at the same place in the alphabet. Every other character is kept |
| `GoStrings.ToLower` | backend/internal/handler/admin/pricing_handler.go:172 | Length is kept; each upper-case ASCII letter becomes the small letter at the same place in the alphabet, and every other character is kept where it was |
| `GoStrings.HasSuffix` | backend/internal/handler/admin/pricing_handler.go:172 | True exactly when the last characters of the string are those of the suffix, in order; a suffix then occurs in the string |
| `GoStrings.StrLessConnected` | backend/internal/handler/admin/pricing_handler.go:79-82 | Of two different strings, one is less than the other |
| `GoStrings.StrLessTransitive` | backend/internal/handler/admin/pricing_handler.go:79-82 | Go's string order is transitive |
| `GoStrings.StrLessIrreflexive` | backend/internal/handler/admin/pricing_handler.go:79-82 | No string is less than itself |
| `GoStrings.TrimSpaceIdempotent` | backend/internal/handler/admin/pricing_handler.go:130 | Trimming twice is trimming once |
| `PricingGuards.Message` | backend/internal/handler/admin/pricing_handler.go:132 | Every rejection has a non-empty message |
| `PricingGuards.MessagesDistinct` | backend/internal/handler/admin/pricing_handler.go:160-173 | Different rejections carry different messages ("No file uploaded", "File too large (max 50MB)", "Only JSON files are accepted", "model parameter is required") |
| `PricingGuards.CheckLookup` | backend/internal/handler/admin/pricing_handler.go:130-134 | A lookup is rejected with "model parameter is required" exactly when the parameter is blank, with that message; otherwise the trimmed, non-empty name goes on to the lookup |
| `PricingGuards.LookupIgnoresSurroundingSpace` | backend/internal/handler/admin/pricing_handler.go:130-134 | Trimming the parameter first gives the same outcome |
| `PricingGuards.CheckUpload` | backend/internal/handler/admin/pricing_handler.go:158-175 | An upload goes on to be read exactly when a file is present, its size is at most 50 MiB, and its lower-cased name ends in ".json". A missing file is rejected first. An oversized file is rejected as too large whatever its name. A present file within the limit whose lower-cased name lacks ".json" is rejected as not JSON, and only such a file is. Every rejection carries one of the three upload messages |
| `PricingGuards.JsonSuffixIgnoresCase` | backend/internal/handler/admin/pricing_handler.go:172 | The extension test accepts exactly names ending in '.', then j, s, o, n, each in either case |
| `PricingGuards.UploadIgnoresNameCase` | backend/internal/handler/admin/pricing_handler.go:172-175 | Lower-casing the file name changes neither acceptance nor the reason for rejection |
| `PricingGuards.UploadExamples` | backend/internal/handler/admin/pricing_handler.go:166-175 | Exactly 50 MiB named "prices.JSON" is accepted. One byte more is too large even for a ".txt" name. "prices.json.txt" is rejected as not JSON |

## Left out

- Every guard rejection is answered with HTTP status 400; the status is not modelled, only which rejection occurs and its message.
- Gin plumbing (`c.Query`, `c.Request.FormFile`, `response.Success`/`response.Error`, JSON encoding) is not modelled. Query strings and the upload header are inputs. Results are returned values. A `FormFile` failure of any cause is the absent file `None`.
- The billing service (`GetAllPricing`, `GetModelPricing`, `ImportPricingData`, `ForceUpdatePricing`, `GetPricingServiceStatus`, `GetPricingConfig`) is outside the handler and is not modelled. The pricing map is an input. `GetStatus` and `ForceUpdate` only pass its answers through.
- `LookupModel` after the guard (the 404 when the service finds no pricing, and the response built from it) depends on that service and is not modelled.
- `UploadPricing` after the guards (`io.ReadAll`, `file.Close`, the import and its 500/400 answers) is I/O or service code and is not modelled.
- Cost fields are `float64`. They are carried as opaque bit patterns and copied through unchanged. The derived `input_cost_per_mtok`/`output_cost_per_mtok` fields (a floating-point multiplication by 1,000,000) are not modelled.
- GoStrings.ToLower: only ASCII letters are lower-cased. Go's `strings.ToLower` also maps non-ASCII letters through Unicode case tables, which are not modelled.
- Strings are modelled as sequences of code points. Invalid UTF-8 in a Go string is not represented.
- `header.Size` is an `int64` in Go and an unbounded integer here. Only its comparison with 50 MiB matters, and the result of that comparison is the same.
- Ordering.SortSlice is an insertion sort. Go's `sort.Slice` uses a different, unstable algorithm. The results agree because the listing's rows are strictly ordered: `Ordering.StrictlySortedUnique` shows that any sort of them gives the same sequence.
