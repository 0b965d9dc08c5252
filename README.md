# memo_flix core, modelled in Dafny

memo_flix is a small Next.js catalogue browser over The Movie Database
service. This project models its core:

- **the home page's data loader** (`app/page.tsx`): `getData` and `fetchTrailer`.
  - `getData` turns the nine filter values into the date range of the chosen
    month and the query fragments. It substitutes a keyword for Horror when
    searching TV.
  - It then asks the catalogue service one of three ways: a free-text search,
    a discover request for one kind (movies shown ten to a page and TV nine,
    each from half of an upstream page), or a discover request for both kinds
    merged newest first and cut into pages of ten.
  - Finally it attaches a trailer link to every item;
- **the genres endpoint** (`app/api/genres/route.ts`): the movie list, the TV
  list, or both merged through a map keyed by genre id. The result is
  formatted as dropdown options and sorted by label;
- **the filter form** (`app/components/Filter.tsx`):
  - fields initialised from the page's filters or their defaults;
  - the genre option list, with Horror injected for TV;
  - the provider option list;
  - the query string the Search button navigates to;
  - Reset and the year choices;
- **the pagination bar** (`app/components/Pagination.tsx`): the query it carries
  from page to page, the link a page change pushes, and when Previous and Next
  are disabled;
- **the media card** (`app/components/Card.tsx`):
  - `slugify` and the derived display fields and links;
  - the episode form a TV card keeps.

The files are:

| file | module | what it holds |
|---|---|---|
| `js.dfy` | `Js` | the JavaScript built-ins the core relies on (`toString`, `parseInt`, `trim`, `Math.ceil`, the truncating `%`, `slice`, `join`, `split(..)[0]`, `padStart`, `toLowerCase`) |
| `sorting.dfy` | `Sorting` | `Array.prototype.sort` as a stable insertion sort |
| `url_params.dfy` | `UrlParams` | `URLSearchParams` as a class over a list of pairs |
| `card.dfy` | `Card` | the item record and the card |
| `catalog.dfy` | `Catalog` | `getData` and `fetchTrailer` |
| `genres.dfy` | `GenresRoute` | the genres endpoint |
| `filter.dfy` | `FilterForm` | the filter form as a class |
| `pagination.dfy` | `Pagination` | the pagination bar as a class |

The catalogue service is a parameter of `GetData`: a function from a
`Request` (search, discover or videos, with its kind, page, dates and filter
fragments) to its answer. `Url` states the URL string of each request.

Several helpers of the runtime are parameters too:

- the URL encoder (`encode`);
- `localeCompare` (`collate`, the "at most" half of the comparison);
- the date parser behind the newest-first sort (`timeOf`).

Properties that depend on them are stated for every such function. Where a
property needs a lawful comparison (sortedness), it is stated under
`TotalPreorder`.

An optional string that is absent (`title?`, `imdb_id?`, a null
`poster_path`) is `""`, and an absent list is `[]`. The source reads both the
same way wherever it reads them, through `||` or a truthiness test.

The Pagination bar's props declare five filters: type, year, month, genre
and country. page.tsx passes it all nine, but the bar reads only those five
when it builds its query. A page link therefore keeps only those five
(`Pagination.CarriedGet`).
Paging through the results of a free-text search, a rating or a provider
loses that filter on the next page. The model keeps this behaviour as
written.

## Model

| member | source | states |
|---|---|---|
| Js.IntToString | app/components/Filter.tsx:148 | `toString` of an integer: never empty, with a leading minus exactly for negatives, otherwise a leading digit |
| Js.NatToString | app/components/Filter.tsx:148 | the decimal text of a natural number is all digits, with a leading zero only for zero itself |
| Js.DigitChar | app/components/Filter.tsx:148 | a digit below ten prints as the character of that value |
| Js.DigitsValueOfNatToString | app/components/Filter.tsx:148 | the decimal digits of a natural number read back as that number |
| Js.Unsigned | app/page.tsx:63 | after the leading white space and at most one sign, what `parseInt` reads is a suffix of the text |
| Js.ParseInt | app/page.tsx:221 | `parseInt(s, 10)` is a number exactly when a digit follows the white space and the sign; an all-digit text reads as its value |
| Js.ParseIntOfIntToString | app/page.tsx:221 | `parseInt(s, 10)` of an integer's decimal text gives the integer back |
| Js.HexDigitValue | app/page.tsx:63 | a hexadecimal digit has a value below 16, its decimal value for 0 to 9 |
| Js.HexPrefix | app/page.tsx:63 | the longest run of leading hexadecimal digits, stopping at the first other character |
| Js.ParseIntAuto | app/page.tsx:63 | `parseInt(s)` with no radix reads as the decimal `parseInt` unless "0x" or "0X" follows the sign; then it is a number exactly when hexadecimal digits follow the mark |
| Js.ParseIntAutoOfIntToString | app/page.tsx:63 | the decimal text of an integer reads back as the integer with no radix too |
| Js.ParseIntAutoOfDigits | app/page.tsx:63 | an all-digit text reads the same with and without the radix |
| Js.HexMarkRead | app/page.tsx:63 | the radix matters: "0x2" reads as 2 with no radix and as 0 with radix 10 |
| Js.DigitPrefix | app/page.tsx:63 | the longest run of leading digits `parseInt` reads, stopping at the first non-digit |
| Js.DigitPrefixOfDigits | app/page.tsx:63 | an all-digit text is read whole |
| Js.TrimStart | app/page.tsx:89 | `trim` removes exactly a leading run of white space: the rest starts with a non-space |
| Js.TrimEnd | app/page.tsx:89 | `trim` removes exactly a trailing run of white space: the rest ends with a non-space |
| Js.Trim | app/page.tsx:89 | `trim` never lengthens a text, and a non-empty result starts and ends with a non-space |
| Js.TrimEmptyIff | app/page.tsx:89 | a trimmed query is empty exactly when every character is white space |
| Js.CeilDiv | app/page.tsx:120 | `Math.ceil(a / b)`: the least multiple of `b` not below `a`, divided by `b` |
| Js.RemTwo | app/page.tsx:129 | JavaScript's `%` by 2: same parity as the operand, with the sign of the dividend |
| Js.RemTwoIsOne | app/page.tsx:129 | `page % 2 === 1` exactly when the page is positive and odd |
| Js.RelativeIndex | app/page.tsx:130 | a non-negative `slice` bound is clamped to the length |
| Js.Slice | app/page.tsx:130 | `slice` is the run of the list from the clamped start, never past the end, and a non-empty slice ends at the clamped end |
| Js.SliceWindow | app/page.tsx:130 | `slice(start, end)` with `0 <= start <= end` is the window clamped to the length, at most `end - start` long |
| Js.Join | app/components/Card.tsx:72 | `join` of no elements is empty and of one element is that element; for more, the length is the first element's, the separator's and the rest's join added up (the content, one element at a time, is JoinSnoc) |
| Js.JoinStartsWithHead | app/components/Card.tsx:77 | a joined list starts with its first element |
| Js.JoinSnoc | app/components/Card.tsx:72 | joining one more element appends the separator and that element |
| Js.BeforeFirst | app/components/Card.tsx:55 | `split('-')[0]`: the longest prefix without the separator, followed by the separator when shorter |
| Js.PadStart | app/components/Filter.tsx:76 | `padStart`: the length is the width or more, the text is kept at the end, and fill characters precede it |
| Js.ParseIntOfPadded | app/components/Filter.tsx:76 | a month 1 to 12 padded to two digits is two characters and reads back as the month |
| Js.ParseIntAutoOfPadded | app/components/Filter.tsx:76 | the padded month reads back as the month with no radix too |
| Js.LowerChar | app/components/Card.tsx:45 | lower-casing a character maps an ASCII upper case letter to its lower case letter (32 code points on), keeps white space as white space and leaves other characters unchanged |
| Js.Lower | app/components/Card.tsx:45 | `toLowerCase` maps every character and keeps the length |
| Sorting.Insert | app/page.tsx:174-178 | inserting adds exactly one occurrence of the element |
| Sorting.Sort | app/page.tsx:174-178 | the sort is a permutation of its input |
| Sorting.InsertSorted | app/page.tsx:174-178 | insertion keeps a list sorted under a total preorder |
| Sorting.SortSorted | app/page.tsx:174-178 | the sort's output is sorted under a total preorder |
| Sorting.ClassOfInsert | app/page.tsx:174-178 | insertion places an element in front of the elements that compare equal to it, and keeps every equivalence class otherwise in order |
| Sorting.ClassCons | app/page.tsx:174-178 | the elements equivalent to a pivot keep a leading equivalent element in front |
| Sorting.SortStable | app/page.tsx:174-178 | the sort is stable: the elements of each equivalence class keep their input order |
| Sorting.SortMembers | app/api/genres/route.ts:39 | the sort keeps exactly the same members |
| Sorting.SortedWindow | app/page.tsx:180 | a run of consecutive elements of a sorted list is sorted |
| UrlParams.Names | app/components/Pagination.tsx:20-25 | the names of a pair list, position by position |
| UrlParams.Get | app/components/Pagination.tsx:28 | `get` finds a value exactly when the name occurs, and the value found is paired with the name in the list |
| UrlParams.Without | app/components/Pagination.tsx:28 | removing a name keeps only pairs of the list with other names, and never lengthens it |
| UrlParams.WithoutGet | app/components/Pagination.tsx:28 | removing a name removes exactly that name and adds none |
| UrlParams.SetPair | app/components/Pagination.tsx:28 | after `set(name, value)` the list holds the pair, and it grew by at most one pair |
| UrlParams.SetPairGet | app/components/Pagination.tsx:28 | after `set(name, value)`, `get(name)` is the value, other names read as before and only `name` can be new |
| UrlParams.SetPairAppends | app/components/Filter.tsx:132-142 | setting a name that is not present appends one pair at the end |
| UrlParams.AppendFresh | app/components/Pagination.tsx:20-25 | setting a name outside a known set of names appends it; the list then holds only that set and the name |
| UrlParams.Fields | app/components/Pagination.tsx:29 | `toString` writes one field per pair, in order, each the encoded name, `=` and the encoded value |
| UrlParams.Serialize | app/components/Pagination.tsx:29 | an empty query serializes to the empty text; any other starts with its first pair's field |
| UrlParams.SerializeSnoc | app/components/Pagination.tsx:29 | one more pair appends `&` and its field to the serialized query |
| UrlParams.SerializeFreshSet | app/components/Pagination.tsx:28-29 | setting a name not yet present adds its field at the end of the serialized query |
| UrlParams.SearchParams.constructor | app/components/Pagination.tsx:20 | a new query string holds no pair |
| UrlParams.SearchParams.Set | app/components/Pagination.tsx:28 | `set` updates the pair list as `SetPair` states |
| Card.Title | app/components/Card.tsx:53 | the title, else the name, else "Untitled"; never empty |
| Card.Year | app/components/Card.tsx:54-55 | "N/A" without a date; otherwise the date's prefix before the first `-` |
| Card.Thumbnail | app/components/Card.tsx:66-68 | the placeholder without a poster, otherwise the image prefix followed by the poster path |
| Card.GenreName | app/components/Card.tsx:22-72 | a known genre id gives its name from the table; an unknown one its decimal text; no name reads "N/A" or even starts with "N" |
| Card.GenreNames | app/components/Card.tsx:72 | each genre id mapped to its name, in order |
| Card.GenreText | app/components/Card.tsx:70-73 | "N/A" exactly when there are no genre ids; a single id gives just its name; more ids give the first name, ", " and the text of the rest |
| Card.GenreTextSnoc | app/components/Card.tsx:72 | one more genre id appends ", " and its name to the genre line |
| Card.CountryText | app/components/Card.tsx:75-78 | "N/A" for a movie or without countries; a TV show's single country is shown as it is, and more countries are the first, ", " and the join of the rest |
| Card.ImdbUrl | app/components/Card.tsx:81-83 | the title page for a known IMDb id, otherwise a search by the encoded title |
| Card.CollapseSpaces | app/components/Card.tsx:45 | replacing white-space runs by `-` never makes a text longer |
| Card.CollapseNoSpace | app/components/Card.tsx:45 | replacing white-space runs by `-` leaves no white space |
| Card.CollapseFixed | app/components/Card.tsx:45 | a text without white space is left unchanged |
| Card.Slugify | app/components/Card.tsx:44-46 | a slug holds no white space and no upper case letter and is no longer than the text |
| Card.CollapseKeepsLower | app/components/Card.tsx:45 | collapsing white space adds no upper case letter |
| Card.LowerOfLower | app/components/Card.tsx:45 | lower-casing a text without upper case letters changes nothing |
| Card.SlugifyIdempotent | app/components/Card.tsx:44-46 | slugifying a slug gives it back |
| Card.TrimStartOfRun | app/components/Card.tsx:45 | a leading run of white space is exactly what `TrimStart` drops |
| Card.CollapseRun | app/components/Card.tsx:45 | a leading run of white space becomes one `-` |
| Card.CollapseWordCons | app/components/Card.tsx:45 | a leading non-space character stays in front of whatever the rest of the text collapses to |
| Card.NoSpaceCons | app/components/Card.tsx:45 | a non-space character in front of a text without white space leaves it without white space |
| Card.CollapseWord | app/components/Card.tsx:45 | a word followed by a white-space run becomes the word and one `-` |
| Card.CollapseCons | app/components/Card.tsx:45 | a leading non-space character is kept as it is |
| Card.LowerAppend | app/components/Card.tsx:45 | lower-casing distributes over concatenation |
| Card.LowerKeepsSpaces | app/components/Card.tsx:45 | lower-casing keeps white space as white space and other characters as other characters |
| Card.SlugifyWord | app/components/Card.tsx:44-46 | a word, a run of spaces and the rest slugify to the lower-cased word, one `-` and the slug of the rest |
| Card.MovieUrl | app/components/Card.tsx:86-87 | the streaming link is the movie prefix followed by the title's slug, which holds no white space |
| Card.MovieUrlSlug | app/components/Card.tsx:86-87 | the link's slug is the title's slug and is left unchanged by slugifying it again |
| Card.EpisodeForm.constructor | app/components/Card.tsx:86-92 | the form starts hidden with empty season and episode, and holds the title's slug |
| Card.EpisodeForm.ToggleForm | app/components/Card.tsx:148 | the toggle flips visibility and keeps the season and episode |
| Card.EpisodeForm.SetSeason | app/components/Card.tsx:159 | typing a season changes only the season |
| Card.EpisodeForm.SetEpisode | app/components/Card.tsx:167 | typing an episode changes only the episode |
| Card.EpisodeForm.Submit | app/components/Card.tsx:94-100 | a link opens exactly when both season and episode are set, and it is the episode URL for the slug |
| Catalog.DaysInMonth | app/page.tsx:63 | month lengths are 28 to 31 days; 29 exactly for February of a leap year, 28 for any other February |
| Catalog.FullYear | app/page.tsx:63 | `new Date` reads years 0 to 99 as 1900 to 1999 and keeps any other year, so the full year is never in 0 to 99 |
| Catalog.EndDay | app/page.tsx:63 | `new Date(year, month, 0).getDate()` is between 28 and 31 |
| Catalog.EndDayOfCalendarMonth | app/page.tsx:63 | for months 1 to 12 the last day is the length of that month of the full year, and February has 29 exactly in leap years |
| Catalog.EndDayOfMonthZero | app/page.tsx:63 | month 0 rolls back to the December of the year before, which has 31 days |
| Catalog.MonthOffsetTable | app/page.tsx:63 | the day offsets of the March-based months are 0, 31, 61, ..., 337 |
| Catalog.DivStep | app/page.tsx:63 | a multiple of k adds one to the count of multiples of k |
| Catalog.YearLength | app/page.tsx:63 | a year has 366 days exactly when it is a leap year, else 365 |
| Catalog.DivisorChain | app/page.tsx:63 | a year divisible by 400 is a century, and a century is divisible by 4 |
| Catalog.EndDayCountsDays | app/page.tsx:62-64 | the computed last day equals the number of days between the first day of the month and the first day of the next month (a calendar count independent of month lengths) |
| Catalog.StartDate | app/page.tsx:62 | the start date ends in `-01` |
| Catalog.EndDate | app/page.tsx:63-64 | the end date is the year, `-`, the month and `-`, followed by "NaN" exactly when the year or the month does not parse with no radix |
| Catalog.EndDateOfMonth | app/page.tsx:63-64 | for a year and a month 1 to 12 the end date is `year-month-last day` of that month |
| Catalog.EndDateHexMonth | app/page.tsx:63-64 | month "0x2" is read as February, ending on the 29th in a leap year, where radix 10 would read month 0 and end on the 31st |
| Catalog.Fragment | app/page.tsx:77-80 | a fragment is empty exactly when its filter is unset or "all"; otherwise it is `&key=` followed by the value |
| Catalog.ProviderFragment | app/page.tsx:81 | a provider fragment names the provider and then always the US watch region |
| Catalog.TvCategoryCode | app/page.tsx:67-75 | the seven category names map to one-digit codes 0 to 6; any other name prints as `undefined` |
| Catalog.TvCategoryFragment | app/page.tsx:67-82 | a TV category fragment is `&with_type=` with the category's code, empty when unset |
| Catalog.QueryFragments | app/page.tsx:77-87 | the fragments are each filter's; for genre 27 on TV the genre is the keyword filter and the TV category is dropped |
| Catalog.FilterList | app/page.tsx:95-105 | movie requests append four fragments (region, genre, rating, provider) and TV requests five (origin, genre, rating, provider, TV category), in that order |
| Catalog.CountryFragments | app/page.tsx:78-105 | a chosen country is the release region for movies and the origin country for TV |
| Catalog.ProviderFragments | app/page.tsx:81-105 | a chosen provider, with the US region, is sent to both kinds |
| Catalog.FragmentNot | app/page.tsx:77-82 | a fragment does not start with a prefix whose key differs from its own |
| Catalog.ProviderNot | app/page.tsx:81 | the provider fragment does not start with a prefix whose key differs from `with_watch_providers` |
| Catalog.MovieAvoids | app/page.tsx:95-125 | no movie fragment starts with a prefix whose key differs from every movie filter's key |
| Catalog.MovieRouting | app/page.tsx:95-157 | movie requests never filter by origin country or TV category |
| Catalog.TvRouting | app/page.tsx:105-164 | TV requests never filter by release region |
| Catalog.HorrorFragments | app/page.tsx:84-105 | for Horror on TV the request has the keyword filter and no TV category; otherwise the genre and TV category fragments |
| Catalog.UnfilteredRequest | app/page.tsx:77-82 | with no filter chosen a request appends no fragment |
| Catalog.Url | app/page.tsx:92-164 | every URL starts with the service's base URL; a search URL then carries the kind, the key, the encoded query and the lower date bound, and a discover URL the kind, the key, the popularity order, the page and the lower date bound; both end with the upper date bound followed by the joined fragments; a videos URL carries the kind and the item id and ends with the key and the English language |
| Catalog.UnfilteredUrl | app/page.tsx:92-164 | with no filter chosen a search or discover URL ends with its upper date bound |
| Catalog.UrlEndsWithBound | app/page.tsx:92-164 | a search or discover request without filter fragments has a URL ending with its upper date bound |
| Catalog.Tag | app/page.tsx:98-133 | tagging keeps every item and only sets its media type |
| Catalog.TagSlice | app/page.tsx:130-133 | tagging a slice is slicing the tagged list |
| Catalog.TagAppend | app/page.tsx:170-173 | tagging distributes over concatenation |
| Catalog.FindTrailer | app/page.tsx:21-23 | `find` returns the first YouTube trailer, or nothing when there is none |
| Catalog.FetchTrailer | app/page.tsx:12-33 | the watch link of the first YouTube trailer when the lookup succeeds and has one; otherwise the YouTube search for the title |
| Catalog.FallbackUrl | app/page.tsx:31-32 | the fallback is a YouTube search URL, never a watch URL, searching for the encoded title followed by " trailer", or the name when there is no title, or "trailer trailer" when there is neither |
| Catalog.TrailerFoundIff | app/page.tsx:20-32 | the link is a watch link exactly when a trailer was found |
| Catalog.WithTrailers | app/page.tsx:185-190 | every item keeps its place and gains its trailer link |
| Catalog.SearchModeIff | app/page.tsx:89 | search mode is used exactly when the query holds a non-space character |
| Catalog.UpstreamPageOf | app/page.tsx:120-129 | pages `2u-1` and `2u` read upstream page `u`; the odd page takes the first half |
| Catalog.HalfPage | app/page.tsx:129-130 | a one-kind page holds at most `size` results, each the upstream result at the slice start plus its position |
| Catalog.HalfPageWindow | app/page.tsx:129-146 | a page is a window of the upstream page of at most `size` items |
| Catalog.HalvesCoverBatch | app/page.tsx:119-150 | the two pages of one upstream page show its first `2 * size` results, in order, without gaps or overlap |
| Catalog.CombinedPage | app/page.tsx:180 | for a page from 1 on, a merged page holds at most ten items, each the merged item at `(page - 1) * 10` plus its position |
| Catalog.CombinedPageWindow | app/page.tsx:179-180 | a merged page is a window of at most ten items, empty exactly past the last page |
| Catalog.CombinedPagesPartition | app/page.tsx:179-180 | every merged item is shown on exactly one page, at its place within the page |
| Catalog.NewestFirst | app/page.tsx:174-178 | an item goes before another exactly when its date's time is not earlier |
| Catalog.NewestFirstIsPreorder | app/page.tsx:174-178 | the newest-first comparison is a total preorder |
| Catalog.CombinedOrder | app/page.tsx:170-178 | the merged list is a permutation of both lists, newest first, and items of equal date keep their order |
| Catalog.WithTrailersKeeps | app/page.tsx:185-190 | adding trailers keeps each item's kind, date and id |
| Catalog.SortedPage | app/page.tsx:180 | a page of a newest-first list is itself newest first |
| Catalog.GetData | app/page.tsx:35-193 | the page for each mode: a search of both kinds (movies then TV, ten per page count), of one kind (its page count), or of another type (nothing); a discover page of one kind (half an upstream page, twice the page count, tagged with the kind); or both kinds merged newest first, at most ten per page and empty past the last; all with trailers |
| Catalog.SearchData | app/page.tsx:89-116 | the search branch: movies and TV concatenated with ceil(n / 10) pages for "all", one kind with the service's count, nothing otherwise |
| Catalog.DiscoverKind | app/page.tsx:119-150 | the one-kind discover branch: half an upstream page of at most 10 movies or 9 shows, twice the page count |
| Catalog.DiscoverAll | app/page.tsx:151-181 | the merged discover branch: a page of the newest-first merge, ceil(n / 10) pages, at most ten items and empty exactly past the last page |
| GenresRoute.Ids | app/api/genres/route.ts:28-31 | the ids of a genre list, position by position |
| GenresRoute.LookupFound | app/api/genres/route.ts:28-31 | a map lookup succeeds exactly for the ids it holds |
| GenresRoute.Put | app/api/genres/route.ts:29-30 | `Map.set` keeps the key order, appends a new key at the end, maps the key to the name and keeps every other key |
| GenresRoute.PutUnique | app/api/genres/route.ts:28-30 | a map never holds an id twice |
| GenresRoute.LastName | app/api/genres/route.ts:29-30 | the last name given for an id exists exactly when the id occurs |
| GenresRoute.PutAll | app/api/genres/route.ts:29-30 | a `forEach(set)` never removes an entry, and the last genre set maps its id to its name |
| GenresRoute.PutAllLookup | app/api/genres/route.ts:29-30 | after `forEach(set)` an id maps to the last name the list gives it, or keeps its old name |
| GenresRoute.PutAllUnique | app/api/genres/route.ts:29-30 | a sequence of sets keeps ids unique |
| GenresRoute.PutAllIds | app/api/genres/route.ts:29-30 | after a sequence of sets the map holds exactly the old ids and the new ones |
| GenresRoute.IdsSnoc | app/api/genres/route.ts:31 | appending a genre appends its id |
| GenresRoute.PutAllExtends | app/api/genres/route.ts:29-31 | a sequence of sets keeps the old keys first and in order, and adds only new keys after them |
| GenresRoute.Merge | app/api/genres/route.ts:28-31 | the merged list never holds an id twice and holds exactly the ids of either list |
| GenresRoute.MergeProperties | app/api/genres/route.ts:20-32 | the merged list has distinct ids, exactly the ids of either list, the TV name where TV has the id and the movie name otherwise, and every movie id before every TV-only id |
| GenresRoute.MergeLookup | app/api/genres/route.ts:28-31 | an id on the TV list keeps its last TV name in the merged list; any other id its last movie name |
| GenresRoute.MergeOrder | app/api/genres/route.ts:28-31 | in the merged list every id from the movie list comes before every id seen only on the TV list |
| GenresRoute.FillMap | app/api/genres/route.ts:28-31 | filling one map with the movie genres and then the TV genres gives the merged list |
| GenresRoute.IdSetIds | app/api/genres/route.ts:28-31 | the id set holds exactly the listed ids |
| GenresRoute.UniqueCount | app/api/genres/route.ts:28-31 | a list with distinct ids has as many ids as entries |
| GenresRoute.PutAllLength | app/api/genres/route.ts:29-30 | a sequence of sets adds at most one entry per set |
| GenresRoute.MergeCount | app/api/genres/route.ts:20-32 | the merged list has one entry per distinct id of the two lists, and no more entries than both together |
| GenresRoute.Chosen | app/api/genres/route.ts:12-32 | the chosen list holds only ids of the two lists; for any type other than movie and TV it never holds an id twice, and it has distinct ids whenever both lists do |
| GenresRoute.Format | app/api/genres/route.ts:35-38 | each genre becomes an option with its id's decimal text as value and its name as label |
| GenresRoute.FormatValuesDistinct | app/api/genres/route.ts:35-38 | distinct ids give distinct option values |
| GenresRoute.GenreMap.constructor | app/api/genres/route.ts:28 | a new map is empty |
| GenresRoute.GenreMap.Set | app/api/genres/route.ts:29-30 | `set` updates the map as `Put` states |
| GenresRoute.Get | app/api/genres/route.ts:3-42 | no genres without an API key; otherwise the chosen list formatted and sorted by label, a permutation of the formatted list and sorted under a lawful comparison; for "all" exactly the options of the merged list |
| FilterForm.Defaults | app/components/Filter.tsx:73-83 | every field defaults to "all" except the empty query, the current year and the current month |
| FilterForm.DefaultMonth | app/components/Filter.tsx:76 | the default month is two digits and reads as the month number, with or without the radix |
| FilterForm.DefaultRange | app/components/Filter.tsx:73-83 | the default year and month give the date range of the current month |
| FilterForm.Initial | app/components/Filter.tsx:85-93 | each field is the page's filter when set, otherwise its default |
| FilterForm.InitialIdempotent | app/components/Filter.tsx:85-93 | defaulting twice is defaulting once, and a set default is never lost |
| FilterForm.GenreOptions | app/components/Filter.tsx:118-124 | "All Genres" first, then the fetched genres with Horror added for TV when missing, sorted by label |
| FilterForm.GenreOptionsSorted | app/components/Filter.tsx:123 | the options after the first are sorted under a lawful comparison |
| FilterForm.AtMostOnce | app/components/Filter.tsx:120-121 | an element that occurs at most once cannot appear at two positions |
| FilterForm.HorrorPresent | app/components/Filter.tsx:120-123 | the TV genre options always include genre 27 |
| FilterForm.PresentIn | app/components/Filter.tsx:120-123 | a list that holds an option with value 27 has value 27 |
| FilterForm.HasValueTail | app/components/Filter.tsx:123 | value 27 after the first option is value 27 in the list |
| FilterForm.HorrorOnce | app/components/Filter.tsx:120-123 | when Horror is injected, genre 27 appears exactly once |
| FilterForm.SingleTwentySeven | app/components/Filter.tsx:120-123 | adding one 27 option to genres without one leaves no two 27 options |
| FilterForm.NotFetched | app/components/Filter.tsx:120 | an option with value 27 is not among genres without value 27 |
| FilterForm.ProviderOptions | app/components/Filter.tsx:103-104 | "All Streaming Services" followed by the fetched providers |
| FilterForm.Form.constructor | app/components/Filter.tsx:73-113 | the form starts from the defaulted filters, with only the "all" genre and provider options |
| FilterForm.Form.ApplyGenres | app/components/Filter.tsx:114-128 | a genre reply replaces the genre options as `GenreOptions` states for the type the request was sent for; no reply keeps them; the filters are unchanged |
| FilterForm.Form.ApplyProviders | app/components/Filter.tsx:99-108 | a provider reply replaces the provider options; no reply keeps them; the filters are unchanged |
| FilterForm.Form.Search | app/components/Filter.tsx:131-144 | the pushed URL holds all nine fields and page 1, in that order |
| FilterForm.SearchQuery | app/components/Filter.tsx:132-142 | ten sets on an empty query string give the ten pairs in order |
| FilterForm.SetFresh | app/components/Filter.tsx:132-142 | a `set` of a name the query does not hold yet appends its pair |
| FilterForm.SetFilterPairs | app/components/Filter.tsx:133-137 | the first five sets on an empty query string give the five filter pairs in order |
| FilterForm.SetRestPairs | app/components/Filter.tsx:138-142 | the last five sets append five pairs after the five filters |
| FilterForm.Form.Reset | app/components/Filter.tsx:151-161 | Reset puts every field back to the defaults of the clock reading of the current render (year and month) and keeps the option lists |
| FilterForm.ResetIsInitialOfNothing | app/components/Filter.tsx:85-161 | the reset state, at a given clock reading, is the state of a form first shown at that reading with no filters |
| FilterForm.YearOptions | app/components/Filter.tsx:146-149 | the years 2000 up to the current year, in order, each reading back as its year, ending with the current year |
| FilterForm.PushYear | app/components/Filter.tsx:148 | pushing the next year keeps the list the run of years from 2000 |
| FilterForm.LastYear | app/components/Filter.tsx:147 | the last year pushed is the current year |
| FilterForm.YearsParse | app/components/Filter.tsx:148 | every year option reads back as its year |
| Pagination.Carried | app/components/Pagination.tsx:21-25 | a link carries at most five pairs, each named after one of the five filters and with a non-empty value |
| Pagination.SetIfPresent | app/components/Pagination.tsx:21-25 | a conditional set with no value changes nothing; with a value the name reads back as the value, and every other name reads as before |
| Pagination.SetIfPresentFresh | app/components/Pagination.tsx:21-25 | a conditional set of a new name appends its pair when the value is set and nothing otherwise |
| Pagination.CarriedBuild | app/components/Pagination.tsx:20-25 | the five conditional sets build the set filters, in the order type, year, month, genre, country |
| Pagination.GetOpt | app/components/Pagination.tsx:21-25 | a conditional pair reads back only under its own name when set |
| Pagination.GetAppend | app/components/Pagination.tsx:21-25 | `get` on two lists finds the first list's pair when it has one |
| Pagination.CarriedGet | app/components/Pagination.tsx:9-25 | each of the five filters reads back from a link when set, and no other name does |
| Pagination.FirstLink | app/components/Pagination.tsx:27-29 | the first page change appends the page at the end; it reads back as that page |
| Pagination.FirstLinkText | app/components/Pagination.tsx:27-29 | the first link's query string is the carried query string followed by `&` and the page field, or the page field alone when no filter is carried |
| Pagination.WithoutTwice | app/components/Pagination.tsx:28 | removing a name twice is removing it once |
| Pagination.SetPairTwice | app/components/Pagination.tsx:28 | a later page change replaces the earlier page and changes nothing else |
| Pagination.PrevTarget | app/components/Pagination.tsx:35-36 | Previous leads nowhere exactly when disabled, and otherwise to the page before, never below 1 |
| Pagination.NextTarget | app/components/Pagination.tsx:45-46 | Next leads nowhere exactly when disabled, and otherwise to the page after, never past the last page |
| Pagination.TargetsInRange | app/components/Pagination.tsx:35-46 | within the listing an enabled button leads to a page of it; a single page disables both |
| Pagination.Pager.constructor | app/components/Pagination.tsx:20-25 | the bar's query holds exactly the set filters |
| Pagination.Pager.GoToPage | app/components/Pagination.tsx:27-30 | a page change sets the page on the bar's query and pushes `/?` and the serialized query |
| Pagination.Pager.Previous | app/components/Pagination.tsx:34-36 | a click on Previous pushes nothing when disabled and the previous page's link otherwise |
| Pagination.Pager.Next | app/components/Pagination.tsx:44-46 | a click on Next pushes nothing when disabled and the next page's link otherwise |

## Left out

- Network I/O (`fetch`, `res.json()`, `NextResponse.json`): the answers are parameters of the model.
- A failing or malformed catalogue or genre response: the source does not handle either. It throws on a missing `results` or `genres` field, and the model assumes the field is present.
- The concurrency of `Promise.all`: the requests are independent, and the model treats them as one step.
- `process.env.TMDB_API_KEY` in `getData`: it appears only inside the URLs, which `Url` states with the key as a parameter.
- Rendering (JSX, CSS classes), `useEffect` scheduling, `router.push` and `window.open`: the methods return the URL that would be pushed or opened.
- The `onChange` setters of the nine filter fields: each assigns one field.
- `Page()`'s own defaulting of the URL parameters (app/page.tsx:210-221): each missing filter takes the same default as in the filter form, which is modelled. Unlike the form, `Page()` also reads the page with `parseInt(…, 10)`, which can give `NaN`; see the next line.
- A page parameter that is not a number (app/page.tsx:221): `parseInt` gives `NaN`, and the model's page is always an integer. With `NaN`, one-kind discover asks for upstream page `NaN` and shows the second half of what comes back, since `NaN % 2 === 1` is false. The merged slice `slice(NaN, NaN)` is empty. The Pagination bar then enables both buttons, because both of its comparisons with `NaN` are false.
- A date that does not parse (app/page.tsx:175-177): `getTime()` gives `NaN`, which makes the comparator inconsistent, and the order `sort` then produces is left to the engine. The model's `timeOf` returns an integer for every text, so `Catalog.CombinedOrder` holds only for dates that parse.
- The static option lists (month, country, rating, TV category) and the watch-providers endpoint: they are fixed data or a proxied fetch, with nothing to compute.
- The clock: `new Date()`, read on every render of the filter bar (app/components/Filter.tsx:70 and 76), becomes the parameters `currentYear` and `monthIndex`. The constructor takes the reading of the first render, and `FilterForm.Form.Reset` takes the reading of the render whose button was pressed.
- Date parsing and `toLocaleDateString`: the newest-first order takes the parsed time as the parameter `timeOf`, and the formatted date on the card is left out.
- The card's `vote_average` display: it is shown as given.
- `encodeURIComponent` and `URLSearchParams`' form encoding: these are the parameter `encode`.
- `localeCompare`: this is the parameter `collate`.
- `toLowerCase` beyond ASCII: the model lowers the ASCII letters only and keeps every other letter. White space is not cut down in the same way: `\s` and `trim` use the full ECMAScript set of white-space and line-terminator characters.
- `tvCategoryMapping` key lookup: any name outside the table reads as `undefined`. That includes inherited object keys such as `toString`, which JavaScript would print as a function.
- Sorting.Sort: `Array.prototype.sort` sorts in place. The model returns a new sorted list, so the in-place update is not captured.
- Catalog.EndDay: JavaScript dates end about 275,760 years from 1970. Past that range `getDate()` is `NaN`, while the model gives the calendar's day for every year.
- Catalog.FetchTrailer: `console.error` logging in the catch branch is not modelled.
- Catalog.EndDayCountsDays: stated for years outside 0..99. JavaScript maps those years to 1900..1999, which `FullYear` models and `EndDayOfCalendarMonth` covers.
- Catalog.DiscoverKind: TV pages show nine items from a 20-item upstream page, so the results at positions 18 and 19 of each upstream page are never shown. The model keeps this behaviour as written.
