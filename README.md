# Ingredient gallery generator — a Dafny model

`generate_gallery.py` reads a JSON file that maps category names to lists of
ingredient objects, each with a `name` and a `filename`. It flattens them into
one list of `(name, filename, category)` items and writes one static HTML page
showing every item as a card. Each card shows the item's image from cloud
storage, its name and its category. The page head states how many items there
are.

This project models that pipeline in Dafny and proves what it guarantees:

- `wrappers.dfy` (`Wrappers`): the `Option` type.
- `extractor.dfy` (`Extractor`): the parsed input and the extractor.
  - The parsed input is a `Document`: the top-level mapping's `(key, value)`
    pairs in insertion order.
  - Each value is a list of elements or anything else.
  - Each element is an object whose `name` and `filename` keys may be missing,
    or some other JSON value.
  - `Flatten` is the specification of the flattening. `ExtractItems` is the
    nested loop of `extract_first_100_items`, proved equal to it.
  - The all-or-nothing failure is modelled exactly: one bad element anywhere
    empties the whole result.
  - A category whose value is not a list is skipped.
- `decimal.dfy` (`Decimal`): how Python's `str` writes a count in decimal, and
  a parser that reads it back.
- `template.dfy` (`PageTemplate`): the fixed texts of the page.
  - They are a `Template` value: ten texts, which are the pieces of the head,
    card and trailer between the interpolated values.
  - `GalleryTemplate` holds the script's texts exactly, with the f-string
    escapes (`{{`, `}}`, `\\`) resolved.
- `renderer.dfy` (`Renderer`): `generate_image_url`, and the way
  `generate_html` builds the string.
  - `Page` is the specification.
  - `GenerateHtml` is the append loop, proved equal to it.
  - The lemmas locate every interpolated value in the page.
- `gallery.dfy` (`Gallery`): the guard in `main`. The page is produced only
  when extraction returned a non-empty list.

Where the documentation and the code disagree, the model follows the code:

- The function is named `extract_first_100_items`, but it returns **all**
  items and has no cap at 100 (`generate_gallery.py:36-37`).
- The trailer is a plain string, not an f-string. So its console message
  contains the literal text `{len(items)}` instead of the count
  (`generate_gallery.py:228`, `285`). `Renderer.TrailerLogsPlaceholder`
  states this.
- A well-formed input with no list elements gives an empty list. `main` then
  reports it as a failed extraction, the same as a broken input.

## Model

| member | source | states |
|---|---|---|
| Decimal.NatToString | generate_gallery.py:211 | The decimal text of the count is non-empty and all digits. It has a leading zero only when it is "0". |
| Decimal.ParseNatToString | generate_gallery.py:211 | Reading the numeral of `n` back as digits gives `n`. So the shown count determines the count. |
| Extractor.ListRecords | generate_gallery.py:29-34 | A list yields records exactly when every element is an object with both `name` and `filename`. Then there is one record per element, in order. Record `j` carries element `j`'s name and filename and the list's category. |
| Extractor.Flatten | generate_gallery.py:24-37 | The flattening succeeds exactly when every element of every list-valued category has both fields. On success it has as many records as there are elements in all lists together. Non-list values count nothing. |
| Extractor.Extracted | generate_gallery.py:20-41 | The returned list has one record per list element when the input loaded and is well formed. In every other case it is empty: load or parse failure, a missing key, or an element that is not an object. |
| Extractor.FlattenAppend | generate_gallery.py:27-34 | The records of earlier categories come before those of later ones. The whole fails when either part fails. |
| Extractor.FlattenSkipsOther | generate_gallery.py:28 | Inserting a category whose value is not a list changes nothing: it adds no records and causes no failure. |
| Extractor.FlattenAt | generate_gallery.py:27-34 | Element `j` of category `k` becomes the record at position (elements of categories before `k`) + `j`. That record holds the element's name and filename and the key `k`. |
| Extractor.FlattenOrigin | generate_gallery.py:27-34 | Conversely, every position of the flattening is such a position for some element. So the output holds nothing else. |
| Extractor.ExtractItems | generate_gallery.py:20-41 | The nested loops, with the early return of `[]` inside the handler, compute `Extracted`. |
| Renderer.ImageUrlParts | generate_gallery.py:53 | The URL is the storage base, then the filename unchanged, then the 240-pixel resize directive, and nothing else. |
| Renderer.ImageUrlInjective | generate_gallery.py:53 | Different filenames give different URLs. |
| Renderer.HeadShowsCount | generate_gallery.py:63-215 | The head is its fixed texts around a numeral that reads back as the item count. |
| Renderer.HeadInjective | generate_gallery.py:211 | Heads for different counts differ. |
| Renderer.CardImage | generate_gallery.py:218-222 | Card `i` holds the delay for `i`, then the URL of the item's filename as the image source, then the item's name as the alt text. None of them is escaped. |
| Renderer.CardLabels | generate_gallery.py:223-225 | Next the card shows the item's name, then its category, unescaped, and it ends with the fixed closing text. |
| Renderer.CardsAt | generate_gallery.py:218-226 | Card `i` is for `items[i]`. It stands directly after the cards of the earlier items: one card per item, in input order. |
| Renderer.TrailerLogsPlaceholder | generate_gallery.py:228-288 | The trailer depends on no item. Its console message holds the literal placeholder text where the count would go. |
| Renderer.PageFrame | generate_gallery.py:63-288 | The page starts with the head for the number of items and ends with the item-independent trailer. |
| Renderer.PageCardAt | generate_gallery.py:217-228 | In the page, card `i` comes right after the head and the cards of the items before it. |
| Renderer.GenerateHtml | generate_gallery.py:63-288 | The head, the append loop over the items and the trailer build exactly `Page`. |
| Gallery.RunGallery | generate_gallery.py:306-314 | A page is produced exactly when the input loaded, is well formed and has at least one element. That page is the rendering of the extracted items. |
| Gallery.Run | generate_gallery.py:302-314 | The same, for the gallery's own page texts. |

## Left out

- Reading the input file and parsing JSON are not modelled. Their outcome is
  the `Source` value: a mapping, or `LoadError` for a missing file,
  malformed JSON or a top level that is not an object. The exception kinds and
  message texts are collapsed into that one case.
- JSON objects hold no duplicate keys in Python (the last one wins, kept at
  the first one's position). A `Document` may repeat keys, so the model is
  more general there.
- The model takes `name` and `filename` to be strings. A JSON number or
  object under those keys is not modelled; Python would interpolate its
  `str()`.
- `Renderer.CardImage`: the animation delay is Python's text for the float
  `i * 0.05`. The model takes it as the parameter `delay`, because Dafny has
  no model of Python's float printing.
- The progress and error messages `print`ed to the console are not modelled.
- Writing the HTML to the output file is not modelled, and neither are the
  fixed input and output paths. `Gallery.Outcome.PageWritten` carries the
  text that would be written.
- The page's stylesheet and browser script (lazy loading, the click-to-zoom
  view that swaps `w_240` for `w_800`) are modelled as fixed text only. What
  they do in a browser is not modelled.
- The rendering functions take the fixed texts as a `Template` parameter, so
  every property holds for any texts. `GalleryTemplate` is the instance with
  the script's own texts, and `Gallery.Run` uses it.
