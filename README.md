# Black-owned business search, modelled in Dafny

The repository is four small Python scripts around the Yelp business
search endpoint. Beneath their network calls, printing, plotting and map
drawing sits a small pipeline, and this project models that pipeline and
proves what it does:

- **Query URL.** `yelp_search_url` (in `yelp2.py` and
  `yelp_blk_search_business.py`) builds the URL from the city and the
  term. The `params` dictionaries of `barchart.py` and `yelp_blk_owned.py`
  are encoded by `requests` in the same way. Both use `quote_plus`, which
  percent-encodes every byte outside the unreserved set of section 2.3 of
  RFC 3986 and writes a space as `+`, the form-encoding rule of section
  17.13.4.1 of HTML 4.01.
- **Response dispatch.** A status other than 200 takes each script's
  error branch. On 200 the body is parsed as JSON and
  `.get("businesses", [])` picks the list of businesses.
- **Flattening and extraction.**
  - `yelp2.py` turns each business into a flat row in a loop. It fails
    on a business without `coordinates` or `location`.
  - `barchart.py` and `yelp_blk_owned.py` select columns of a pandas
    DataFrame and add `address` and `city` columns in place. A key the
    location lacks becomes `""`.
  - `barchart.py` also drops `location` and replaces each row's category
    objects by their titles.
- **Category histogram.** `barchart.py` explodes the title lists and
  counts the titles with `value_counts`.
- **Markers and the map file.** `yelp2.py` puts one marker per row on a
  folium map, green when the rating is at least 4 and blue otherwise. It
  saves the map under a file name derived from the city.

Modules, one per file:

- **Base modules:**
  - `Json` (json.dfy): JSON values and the Python exceptions raised.
    `d.get`, `d[k]`, `len` and iteration are modelled.
  - `UrlEncode` (url_encode.dfy): `quote_plus`, `unquote_plus` and
    `urlencode`, with round-trip lemmas.
  - `Request` (request.dfy): the search URL and the parameter
    dictionaries.
  - `Response` (response.dfy): the status and `businesses` dispatch, and
    the records a DataFrame is built from.
  - `Frames` (frames.dfy): the DataFrame operations the scripts use. The
    value `Table` is updated in place through the class `Frame`.
  - `Histogram` (histogram.dfy): `explode` and `value_counts`.
- **Script modules:**
  - `Yelp2` (yelp2.dfy)
  - `Barchart` (barchart.dfy)
  - `BlkSearchBusiness` (blk_search_business.dfy)
  - `BlkOwned` (blk_owned.dfy)

State that the scripts change step by step is modelled imperatively:
- the `business_data` list appended in a loop
- the folium map receiving markers in a loop
- the DataFrame whose columns are assigned and dropped in place

Each such method is proved equal to a specification function. The
properties are then proved about that function.

### Decisions

- The HTTP response is an input: its status, and its body parsed as JSON
  (or None when it is not JSON).
- URL strings are byte sequences: the UTF-8 encoding of the city is taken
  as given. JSON strings are `string`.
- JSON numbers are exact `real`s, so `rating >= 4` compares exactly.
- pandas NaN (a key a record lacks) and JSON null are both `JNull` in a
  column. No modelled step tells them apart.
- Python exceptions are modelled as `Raised` values.
  - `KeyError(key)` is raised for `d[k]` and for a missing DataFrame
    column.
  - `NotADict` stands for Python's AttributeError and TypeError on a
    value that is not a dictionary: `.get` on it, `x["title"]` on null, a
    string or a list, and iterating a non-empty string or dictionary whose
    elements are then subscripted.
  - `NotIterable` is raised for `len` or iteration on null or a number.
  - `NotJson` is raised when the body does not parse.
  - `TypeError` is raised for a comparison or a `join` on wrong types.
  - `Unsupported` covers shapes the model does not follow pandas into.
- In `barchart.py` and `yelp_blk_owned.py` an empty or missing
  `businesses` list gives a frame without columns. Selecting columns from
  it raises KeyError, and the model keeps that crash as written.
  `yelp_blk_search_business.py` checks `.empty` first and shows "No
  results showing".
- No script checks the city before using it. A field a business lacks
  becomes `None` or NaN, except address and city in `barchart.py` and
  `yelp_blk_owned.py`, which become `""`. The `"N/A"` defaults of
  `interactive map/map.py` belong to that script, which is not modelled.

## Model

| member | source | states |
|---|---|---|
| UrlEncode.QuotePlusAlphabet | yelp2.py:26-27 | every byte of an encoded component is unreserved, `+` or `%` |
| UrlEncode.QuotePlusKeepsUnreserved | yelp2.py:26-27 | a component of unreserved bytes only is left unchanged |
| UrlEncode.UnquoteQuote | yelp2.py:26-27 | `unquote_plus(quote_plus(s)) == s` for every byte string |
| UrlEncode.QuotePlusIsEncoded | yelp_blk_search_business.py:27-28 | an encoded component is made only of unreserved bytes, `+` and `%XX` triples with upper-case hex digits |
| UrlEncode.QuoteUnquote | yelp_blk_search_business.py:27-28 | decoding then re-encoding a well-formed encoded component gives it back |
| UrlEncode.NoDelimiterLeaks | yelp_blk_search_business.py:27-28 | no space, `&`, `=`, `?` or `#` occurs in an encoded component |
| UrlEncode.DecodeQueryPair | yelp2.py:28 | one `key=value` pair decodes back to its key and value and contains no `&` |
| UrlEncode.DecodeUrlEncodePairs | barchart.py:32 | splitting an encoded query at `&` and `=` and decoding gives back the pairs, in order |
| UrlEncode.UrlEncodePairs | barchart.py:32 | the query is empty exactly when there are no pairs |
| Request.SearchUrlIsQuery | yelp_blk_search_business.py:22-29 | the URL is the endpoint, `?`, and the form-encoded pairs (location, city) and (term, term), with nothing else added |
| Request.SearchUrlRoundTrip | yelp2.py:21-28 | parsing the URL and decoding its query recovers the city and the term exactly |
| Request.SearchUrlInjective | yelp2.py:21-28 | two equal URLs come from the same city and the same term |
| Request.SearchUrlEndsWithTerm | yelp2.py:27-28 | the URL ends with `term=` and the encoded term |
| Request.DefaultTermQuery | yelp2.py:21 | with the default term the URL ends in `term=Black+owned` |
| Request.DefaultTermSpelled | yelp_blk_search_business.py:22 | the default term is the bytes of `Black owned` |
| Request.QuoteSpelledTerm | yelp2.py:27 | `Black owned` encodes to `Black+owned` |
| Request.BarchartParams | barchart.py:24-29 | barchart's limit lies between 1 and Yelp's cap of 50; no term is sent; results are sorted by rating |
| Request.BlkOwnedParams | yelp_blk_owned.py:25-31 | the limit is exactly the cap of 50, sorted by rating, with the term `Black owned` |
| Request.Decimal | yelp_blk_owned.py:29 | the decimal numeral of a limit is never empty |
| Request.ParseDecimalOfDecimal | yelp_blk_owned.py:29 | reading the decimal numeral of `n` back gives `n` |
| Request.ParamsUrlRoundTrip | yelp_blk_owned.py:34 | the query `requests` builds from the parameters decodes back to the pairs in order, and its `limit` entry reads back as the requested limit |
| Response.Dispatch | yelp_blk_owned.py:37-39 | a status other than 200 takes the error branch with that status; on 200 a body that is not JSON or not an object raises; otherwise `businesses` is the body's entry, or `[]` when absent |
| Response.Records | barchart.py:40 | the frame's records exist exactly for null or a list of objects; one record per business in order, record `i` is business `i`'s fields; null gives none |
| Json.Titles | yelp2.py:51 | the comprehension succeeds exactly when every category is an object with `title`; one title per category, in order |
| Yelp2.Flatten | yelp2.py:44-52 | one row from one business: a missing `coordinates` or `location` raises KeyError and is not defaulted; the other fields are read with `.get` (None when absent) and the categories are the titles |
| Yelp2.FlattenCategories | yelp2.py:51 | a row's categories are the titles in order, and `[]` when the business has no `categories` key |
| Yelp2.FlattenAll | yelp2.py:42-52 | flattening succeeds exactly when every business does; then there is one row per business, in input order; otherwise the first failing business's error |
| Yelp2.FlattenLoop | yelp2.py:42-52 | the append loop produces exactly FlattenAll of the businesses |
| Yelp2.Fetch | yelp2.py:37-57 | a status other than 200 gives no rows and no flattening; a body that is not JSON or not an object raises; a missing `businesses` gives no rows; a list is flattened; a null list raises at `len` |
| Yelp2.GetYelpResults | yelp2.py:30-57 | requests the search URL with the default term and returns Fetch of the response |
| Yelp2.RatingColour | yelp2.py:70 | a colour exactly for a number, a boolean, or NaN in a float column; green exactly when the rating is a number at least 4, blue for a number below 4; otherwise a TypeError |
| Yelp2.Markers | yelp2.py:68-77 | one marker per row, in order, at that row's coordinates and coloured by the rating rule; otherwise the error of the first failing row |
| Yelp2.FoliumMap.AddMarker | yelp2.py:73-77 | adding a marker appends it to the map's markers |
| Yelp2.FoliumMap.constructor | yelp2.py:65 | a new map has zoom 13, CartoDB Positron tiles and no markers |
| Yelp2.CreateInteractiveMap | yelp2.py:59-82 | a new map with zoom 13 and the "CartoDB Positron" tiles; the loop leaves on it exactly Markers of the rows, and the file saved is MapFileName(city), or the first marker error is returned |
| Yelp2.FirstReplaced | yelp2.py:80 | the first byte after replacement is `_` exactly where `, ` started, otherwise unchanged |
| Yelp2.ReplaceLeavesNoCommaSpace | yelp2.py:80 | after `replace(', ', '_')` no `, ` is left |
| Yelp2.RestoreReplace | yelp2.py:80 | for a city without `_` the replacement can be undone |
| Yelp2.MapFileNameInjective | yelp2.py:80 | two cities without `_` with the same map file name are the same city |
| Yelp2.Script | yelp2.py:84-98 | a status other than 200, or no businesses, prints "No results found"; a fetch that raises, or a marker that raises, crashes with that error; a map is saved exactly when there is at least one row and every row's marker can be made, and it then holds those markers, one per row, under the city's file name |
| Yelp2.Run | yelp2.py:84-98 | the script requests the default-term URL for the city and ends as Script says |
| Frames.FirstMissing | barchart.py:43 | a wanted label no record has, or none when every wanted label is a column |
| Frames.SelectColumns | barchart.py:43 | `df[wanted]` succeeds exactly when every wanted label is a column; then the wanted columns in order with one row per record; otherwise a KeyError naming a missing label |
| Frames.SelectFromKeylessFails | yelp_blk_owned.py:47 | selecting from a frame without columns raises KeyError on the first wanted label |
| Frames.TableSet | barchart.py:44 | `df[l] = v` gives column `l` the cells `v`, keeps every other column, and puts a new label last |
| Frames.Without | barchart.py:46 | the labels left after removing `l` are exactly the others, still distinct |
| Frames.TableDrop | barchart.py:46 | dropping `l` removes that column, keeps the others and the row count |
| Frames.ApplyGet | barchart.py:44-45 | `.apply(lambda x: x.get(k, d))` succeeds exactly when every cell is a dictionary; each cell becomes its `.get` |
| Frames.ApplyTitles | barchart.py:49 | every cell becomes the list of its category titles, and it fails with the error of the first failing cell |
| Frames.WithAddressCityMeaning | yelp_blk_owned.py:48-49 | address and city are added last; they fail exactly when some location is not a dictionary; row `i` gets `address1`/`city`, null passing through and `""` when absent; other columns unchanged |
| Frames.Frame.constructor | barchart.py:40 | the frame holds the given table |
| Frames.Frame.SetColumn | barchart.py:49 | in place, the frame becomes TableSet of its old state |
| Frames.Frame.Drop | barchart.py:46 | in place, the frame becomes TableDrop of its old state |
| Frames.Frame.AddAddressCity | barchart.py:44-45 | in place, the frame becomes WithAddressCity of its old state; when that raises, the error is returned and the frame is left as it was |
| Histogram.Strings | barchart.py:52-53 | the tokens of a title list exist exactly when every title is a string or NaN; a list of strings gives them all, in order |
| Histogram.StringsAppend | barchart.py:52-53 | the tokens of two pieces of a list are the pieces' tokens in order, or the first piece's error |
| Histogram.StringsDropsNull | barchart.py:52-53 | a NaN title is dropped wherever it stands in a mixed list |
| Histogram.StringsKeepsString | barchart.py:52-53 | a string title is kept, in its place between the tokens before and after it |
| Histogram.ExplodeAppend | barchart.py:52 | exploding two pieces of a column is exploding each, concatenated |
| Histogram.ExplodeSkipsEmpty | barchart.py:52-53 | a business with no categories adds no token |
| Histogram.EmptyListContributesNothing | barchart.py:52-53 | removing a row whose list is empty leaves the tokens unchanged |
| Histogram.ExplodeCountsPairs | barchart.py:52-53 | with string title lists the number of tokens is the number of (business, category) pairs |
| Histogram.OccPositive | barchart.py:53 | a value occurs at least once exactly when it is among the tokens |
| Histogram.Dedup | barchart.py:53 | the distinct tokens, each once |
| Histogram.Insert | barchart.py:53 | inserting keeps every pair and adds one |
| Histogram.InsertDescending | barchart.py:53 | inserting into a descending list keeps it descending |
| Histogram.InsertKeysDistinct | barchart.py:53 | inserting a new key keeps keys distinct |
| Histogram.SortDesc | barchart.py:53 | sorting is a permutation of the pairs |
| Histogram.SortDescDescending | barchart.py:53 | the sorted counts do not increase |
| Histogram.SortDescKeysDistinct | barchart.py:53 | sorting keeps keys distinct |
| Histogram.ValueCounts | barchart.py:53 | every distinct category once, with its count, at least 1, counts not increasing, no category missing |
| Histogram.CountInAll | barchart.py:53 | counting a set holding every token gives the number of tokens |
| Histogram.SumIsCountIn | barchart.py:53 | the sum of exact counts with distinct keys is the number of tokens whose key is listed |
| Histogram.SumOfCounts | barchart.py:52-53 | the counts add up to the number of tokens |
| Histogram.ValueCountsUnique | barchart.py:53 | any two valid results hold the same pairs, whatever the tie order |
| Barchart.LabelFacts | barchart.py:43 | the selected labels are distinct and address and city are new |
| Barchart.AfterDrop | barchart.py:43-46 | after the drop the labels are name, rating, phone, categories, address, city |
| Barchart.Selection | barchart.py:43 | succeeds exactly when each of the five labels is a key of some business, giving those columns with one row per record; otherwise a KeyError naming a label no business has; an empty list raises KeyError("name") |
| Barchart.Titled | barchart.py:46-49 | location is gone, categories are the title lists, the other columns and the row count are unchanged |
| Barchart.ChartOnlyOn200 | barchart.py:35-68 | a status other than 200 takes the error branch with that status, and only then |
| Barchart.NoBusinessesRaises | barchart.py:37-43 | a body without `businesses` gives an empty frame and the selection raises KeyError("name") |
| Barchart.FramedShape | barchart.py:43-46 | after extraction the columns are name, rating, phone, categories, address, city, and the row count is unchanged |
| Barchart.FramedAddress | barchart.py:44-45 | each location is a dictionary and the row's address and city are its `address1` and `city`, or `""` |
| Barchart.FramedKept | barchart.py:49 | the name column is kept and the categories are the title lists |
| Barchart.BuildFrame | barchart.py:40-49 | the chart's frame is the extraction applied to the selected records |
| Barchart.ChartShape | barchart.py:43-46 | the chart's frame has the six columns and one row per business |
| Barchart.ChartAddresses | barchart.py:44-45 | business `i`'s location is a dictionary; row `i`'s address and city are its `address1` and `city`, null passing through, `""` when absent |
| Barchart.ChartNames | barchart.py:43 | row `i`'s name is business `i`'s name |
| Barchart.ChartTitles | barchart.py:49 | row `i`'s categories are business `i`'s category titles, in order |
| Barchart.ChartCounts | barchart.py:52-53 | the plotted counts are valid value counts of the tokens and add up to the number of (business, category) pairs |
| Barchart.Run | barchart.py:17-68 | with the frame changed in place, the script sends the barchart parameters and ends as ChartOf says |
| BlkOwned.LabelFacts | yelp_blk_owned.py:47 | the selected labels are distinct and address and city are new |
| BlkOwned.PrintedOnlyOn200 | yelp_blk_owned.py:37-54 | a status other than 200 takes the error branch with that status, and only then |
| BlkOwned.NoBusinessesRaises | yelp_blk_owned.py:39-47 | a body without `businesses` gives an empty frame and the selection raises KeyError("name") |
| BlkOwned.SelectionFails | yelp_blk_owned.py:47 | the selection raises KeyError exactly when one of the four columns is in no business, naming such a column |
| BlkOwned.PrintedFrame | yelp_blk_owned.py:44-49 | the printed frame is name, rating, display_phone, location, address, city with one row per business in order; address and city are the location's `address1` and `city`, null passing through, `""` when absent |
| BlkOwned.Run | yelp_blk_owned.py:25-54 | with the columns assigned in place, the script sends the parameters and ends as Printout says |
| BlkSearchBusiness.GetYelpResults | yelp_blk_search_business.py:31-44 | a status other than 200 gives the empty frame; on 200 a body that is not JSON or not an object raises, the `businesses` list is kept in length and order, or is empty when missing; a null list raises at `len` |
| BlkSearchBusiness.FrameEmptyMeaning | yelp_blk_search_business.py:57 | the frame is empty exactly when there are no rows or no record has any key |
| BlkSearchBusiness.Show | yelp_blk_search_business.py:57-61 | "No results showing" exactly for an empty frame; otherwise the three columns with one row per record, or a KeyError naming a missing column |
| BlkSearchBusiness.ErrorShowsNoResults | yelp_blk_search_business.py:42-44 | a status other than 200 ends in "No results showing" |
| BlkSearchBusiness.NoBusinessesShowsNoResults | yelp_blk_search_business.py:39 | a body without `businesses` ends in "No results showing" |
| BlkSearchBusiness.ShownRows | yelp_blk_search_business.py:58 | what is shown has one row per business, in order, with its name, location and categories |
| BlkSearchBusiness.Run | yelp_blk_search_business.py:22-35 | the request is the search URL for the city with the default term "Black owned", and the run ends as Script says |

Proof steps: the lemmas Json.PrependPrepend, Json.PrependNothing,
UrlEncode.IndexOf, UrlEncode.QuoteByteThenUnquote, Yelp2.FlattenAllStep,
Yelp2.MarkersStep, Histogram.CountInNone, Histogram.CountInAdd,
Histogram.KeySetMembers, Barchart.WithoutSecond, Barchart.WithoutAbsent and
Barchart.RowsOfLocations only serve the proofs of the members above.

## Left out

- The network call `requests.get`, the headers, the API key, `load_dotenv`
  and `os.getenv`: the response is an input.
- The exact text of the URL `requests` sends. `requote_uri` and the
  session layer are not modelled. The `params` query is the
  `urlencode` of the pairs in insertion order.
- `argparse` and every `print`, including the "Found N businesses" line
  and the error line with the response text.
- folium rendering: the popup text, the icon and `m.save` writing the
  file. Only the markers, the colour rule and the file name are modelled.
- Yelp2.Script: when a business's `coordinates` lacks `latitude` or
  `longitude`, `folium.Marker` raises ValueError at yelp2.py:73. The model
  does not capture that check: it reports a saved map with a null
  coordinate in that marker. It also does not capture the two crashes of
  the map centre: `df['latitude'].mean()` raising on a non-numeric
  latitude (yelp2.py:64), and `folium.Map` raising on a NaN centre when
  every latitude is null (yelp2.py:65).
- matplotlib plotting in `barchart.py`: the figure, labels and `show`.
- The map centre, the mean of latitudes and longitudes: floating-point
  averaging with NaN skipping.
- Floating point: numbers are exact reals.
- pandas dtype coercion: the only case modelled is the rating column.
  - Numbers and NaN make a float column, where a missing rating compares
    as not at least 4.
  - Any other mix keeps `None`, which raises TypeError.
- JSON parse errors are all one `NotJson`. JSON object key order is not
  kept, since no modelled step depends on it.
- pandas behaviour on `businesses` values that are neither null nor a
  list of objects: modelled as `Unsupported`.
- Non-string category titles in `', '.join`: a TypeError, not followed
  further.
- Histogram.Strings: a numeric or boolean category title, which pandas
  would count, and a list or dictionary title, on which pandas raises
  TypeError (unhashable), are both reported as `Unsupported`.
- Histogram.ValueCounts: pandas' order among equal counts is not
  specified. The model proves only that counts do not increase, and that
  any two valid results hold the same pairs.
- Frames.SelectColumns: pandas reports every missing label in its
  KeyError. The model names one missing label, the first in the wanted
  order.
- Frames.SelectColumns: requires the wanted labels to be distinct, which
  every call in the scripts meets.
- The map script in `interactive map/map.py` is not part of this model.
