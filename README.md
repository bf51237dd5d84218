# Ranked list blocks: a verified model of the structured-data core

This project models, in Dafny, the part of the WordPress plugin
"WP Ranked List Blocks" that decides what a page says about its ranked list:

- **Collector** (`collector.dfy`). It walks the parsed block tree in document
  order and gathers the attributes of every `wcg/ranked-list-block`.
- **List builder** (`item_list.dfy`). It gates on the view and the record
  count, numbers the records (skipped records still use up a number), drops
  records without a title, and assembles the schema.org `ItemList` document.
- **Item builders** (`item_builder.dfy`). These are the `add_*` helpers that
  fill one record's schema.org object key by key. They are proved equal to a
  declarative description of the finished object (`item_spec.dfy`), and every
  property of a built item is stated about that description.
- **Frontend** (`frontend.dfy`). It holds the global position counter (reset,
  increment-and-return), the `the_content` filter that resets it, and the
  gating at the top of the block's render callback.
- **Editor** (`editor.dfy`). It holds two computations of the block's edit
  component: the position selector loop and the ordered list of validation
  warnings.

The supporting modules are:

- `json_value.dfy`: a JSON value, with objects as insertion-ordered key/value
  sequences, and a key assignment that keeps an existing key in its slot, as
  PHP arrays do.
- `php_values.dfy`: PHP's `empty()`, `??`, `is_numeric`, `(float)`, `(int)`,
  `trim`, `explode`, the key-preserving `array_filter`, and the list test
  `json_encode` applies to arrays.
- `decimal.dfy`: the decimal grammar and exact values these share with
  JavaScript's `parseFloat` and `Number`.
- `wrappers.dfy`: `Option`.

WordPress itself is not modelled. Whether the view is singular, the parsed
blocks of the post, the sibling order seen by the editor, and the editor's
field values are all inputs.

Where the plugin's own description and its code differ, the model follows the
code:

- **Positions have gaps.** A `ListItem`'s position is the 1-based index of its
  record among all collected records, so a skipped record with an empty title
  leaves a gap. The positions are not renumbered over the emitted items.
- **sameAs with no surviving URL.** A `sameAs` whose pieces are all blank is
  published as an empty JSON array, not omitted.
- **sameAs with one surviving URL that was not the first piece.** It is
  published as `null`, because `array_filter` keeps keys and the code reads
  `$urls[0]`.
- **sameAs with a blank piece before a surviving URL.** `array_filter` keeps
  the original keys, so when no URL or more than one survives, sameAs is a
  JSON array exactly when no blank piece comes before a surviving one, and
  otherwise a JSON object keyed by the survivors' original indices:
  `"a,,b"` gives `{"0":"a","2":"b"}`, while `"a,b,"` still gives an array.

## Model

| member | source | states |
|---|---|---|
| Collector.CollectBlocks | includes/schema.php:109-123 | the loop with its recursive merge returns exactly the attributes of the ranked blocks of the whole tree, in document order |
| Collector.CollectStep | includes/schema.php:112-119 | one more sibling adds its own attributes when it is a ranked block (an empty map when absent), then everything collected from its inner blocks |
| Collector.NodeBeforeDescendants | includes/schema.php:112-119 | in document order a block comes after all of its earlier siblings' subtrees, right before its own descendants, and before its later siblings |
| Collector.RankedAttrsMembers | includes/schema.php:113-114 | a bag is collected if and only if some ranked block carries it (absent attributes read as the empty bag); no more records than blocks |
| Collector.PreOrderAppend | includes/schema.php:112-120 | the walk of a split sibling list is the walk of the first part followed by the walk of the second |
| ItemList.OutputSchema | includes/schema.php:15-103 | the document echoed is None unless the view is singular and there is a post; otherwise it is the list document of the collected records |
| ItemList.Survivors | includes/schema.php:36-42 | the indices of emitted records are in range, strictly increasing, and include every record whose title is not empty() |
| ItemList.BuiltAtSurvivors | includes/schema.php:34-87 | the j-th list element is the j-th record with a title, wrapped as a ListItem whose position is that record's 1-based index among all collected records |
| ItemList.BuiltCount | includes/schema.php:36-88 | the loop produces exactly one element per record with a title |
| ItemList.EmittedItemsNamed | includes/schema.php:39-48 | every emitted record has a title that is not empty(), and its item's second key is "name" with that title |
| ItemList.DocumentGate | includes/schema.php:29-92 | a document exists if and only if at least two records were collected, counting those without a title, and at least one of them has a title |
| ItemList.BuiltNonEmpty | includes/schema.php:90-92 | the element list is empty exactly when no record has a title |
| ItemList.DocumentCount | includes/schema.php:94-100 | numberOfItems equals the number of records with a title and the length of itemListElement |
| ItemBuilder.BuildItem | includes/schema.php:44-81 | the object built key by key is exactly the declarative item Item(a), so every property below holds for what is emitted |
| ItemBuilder.AddPlatformSchema | includes/schema.php:131-154 | the result is the item with "@type" overwritten in place to "Thing" and the four Platform fields assigned in order; no other key changes |
| ItemBuilder.PlatformKeeps | includes/schema.php:131-153 | after the Platform assignments "@type" is "Thing" and every key outside the Platform keys keeps its value |
| ItemBuilder.AddProductSchema | includes/schema.php:159-167 | the result is the item with the optional offer assigned; no key other than "offers" changes |
| ItemBuilder.AddPlaceSchema | includes/schema.php:172-182 | the result is the item with the optional address then telephone assigned; no other key changes |
| ItemBuilder.AddCreativeSchema | includes/schema.php:187-197 | the result is the item with the optional author then datePublished assigned; no other key changes |
| ItemBuilder.AddPodcastSchema | includes/schema.php:203-218 | "image" becomes the hero image when set, else the logo only if "image" was still empty(), else is unchanged; a series keeps its datePublished; keys outside image, author and datePublished keep their values |
| ItemBuilder.PodcastImageKept | includes/schema.php:204-208 | the podcast's image assignment decides "image", because the later author and date assignments never touch it |
| ItemBuilder.PodcastSeriesDate | includes/schema.php:215-217 | for a type other than PodcastEpisode, datePublished is left as it was |
| ItemBuilder.AddRating | includes/schema.php:223-252 | the result is the item with aggregateRating attached exactly when the normalised rating exists; no other key changes |
| ItemBuilder.RatingAssembled | includes/schema.php:231-251 | the rating under construction holds ratingValue or reviewCount exactly when the rating is attached, and it is then the attached object |
| ItemBuilder.RatingArray | includes/schema.php:231-246 | the rating array is the type, then ratingValue with bestRating 5 and worstRating 0 when the value is accepted, then reviewCount when the count is accepted, in that order |
| ItemSpec.ItemCommonFields | includes/schema.php:44-57 | every item starts with "@type" (the schema type, "Product" when absent, "Thing" for a Platform) and "name" (the title); description and url are present exactly when not empty(), with the attribute's value |
| ItemSpec.ItemKeysUnique | includes/schema.php:44-81 | an item never holds the same key twice |
| ItemSpec.ItemKeysByType | includes/schema.php:63-78 | the group helpers are exclusive: an item only carries the common keys and the keys of its own type's group, and a type in no group gets only the common keys, its image and the rating |
| ItemSpec.ItemKeyOrigin | includes/schema.php:44-81 | any key beyond the common ones comes from the type-specific fields |
| ItemSpec.PlatformItem | includes/schema.php:131-153 | a Platform is a Thing whose image is [hero, logo] when both are set, a bare URL when one is, absent when none; subtitle, alternateName and sameAs are copied when not empty() |
| ItemSpec.PlatformImageGet | includes/schema.php:136-145 | the Platform image is the non-empty hero and logo URLs, collapsed to one string when exactly one is set |
| ItemSpec.PlatformKey | includes/schema.php:131-153 | the Platform fields carry no key other than disambiguatingDescription, image, alternateName and sameAs |
| ItemSpec.ProductItem | includes/schema.php:159-167 | offers is present exactly when price is not empty() and numeric, holding the price's value and the currency, or "GBP" only when the key is absent; image is the logo when set |
| ItemSpec.PlaceItem | includes/schema.php:172-182 | address is a PostalAddress with the street and telephone is copied, each only when not empty(); image is the logo when set |
| ItemSpec.CreativeItem | includes/schema.php:187-197 | author is a Person with the name and datePublished is copied, each only when not empty(); image is the logo when set |
| ItemSpec.PodcastItem | includes/schema.php:203-218 | image is the hero image when set, otherwise the logo; author is a Person; datePublished is present only for a PodcastEpisode |
| ItemSpec.UngroupedItem | includes/schema.php:58-78 | a type in no group still gets the logo as its image when set |
| ItemSpec.RatingObject | includes/schema.php:223-252 | a rating exists exactly when the value or the count is accepted, and it is then an AggregateRating object with at least one more field |
| ItemSpec.ItemRating | includes/schema.php:81 | an item's aggregateRating is exactly the normalised rating, absent when there is none |
| ItemSpec.RatingContents | includes/schema.php:231-246 | ratingValue with bestRating 5 and worstRating 0 appear only for a numeric value in [0, 5]; reviewCount appears only for a numeric count whose integer part is positive, holding that integer part; no key repeats |
| ItemSpec.ReviewCountWholeReviews | includes/schema.php:244-245 | a count is accepted exactly when it is numeric and at least 1; the stored count is its value truncated toward zero |
| ItemSpec.SameAsClean | includes/schema.php:149-153 | when no piece is blank, sameAs is the single URL or the array of all URLs in order |
| ItemSpec.SameAsBlank | includes/schema.php:150-152 | when every piece is blank, sameAs is an empty array, not omitted |
| ItemSpec.SameAsLoneLaterSurvivor | includes/schema.php:151-152 | a single surviving URL that was not the first piece is read as $urls[0], which is missing, so sameAs is null |
| ItemSpec.SameAsShape | includes/schema.php:149-153 | a lone survivor is its own string when it is the first piece and null otherwise; with no survivor or several, sameAs is an array exactly when no blank piece precedes a surviving one, and an object otherwise |
| Php.Explode | includes/schema.php:150 | explode yields at least one piece and no piece contains the separator |
| Php.ImplodeExplode | includes/schema.php:150 | joining the pieces of explode with the separator gives back the original string |
| Php.ExplodeImplode | includes/schema.php:150 | exploding the join of pieces without the separator gives back the pieces |
| Php.Trim | includes/schema.php:150 | the result is a slice of the input with only trim's white-space characters before and after it, and it neither starts nor ends with one of them |
| Php.FilterFalsy | includes/schema.php:151 | array_filter keeps exactly the pieces that are not "" or "0", under their original keys, in order |
| Php.FilterFalsyKeepsAll | includes/schema.php:151 | with no falsy piece, array_filter keeps every piece under keys 0, 1, 2, ... |
| Php.FilterFalsyDropsAll | includes/schema.php:151 | with only falsy pieces, array_filter keeps nothing |
| Php.FilterFalsyCount | includes/schema.php:151 | array_filter keeps at most every piece, and keeps them all exactly when none is falsy |
| Php.FilterFalsyIsList | includes/schema.php:151-152 | the filtered array is still a list exactly when no falsy piece comes before a kept one |
| Php.ArrayToJson | includes/schema.php:152 | the result is a JSON array exactly when the keys are 0, 1, 2, ..., holding the values in order; otherwise it is an object with one member per entry, in order, whose name is all digits and reads back as the entry's key, and an array without repeated keys never yields an object with a repeated member name |
| Php.IsNumeric | includes/schema.php:235 | a numeric string is an optional sign followed by digits and at most one '.', with at least one digit |
| Php.ToFloat | includes/schema.php:236 | the value read is negative only under a leading minus sign |
| Php.ToFloatScaled | includes/schema.php:236 | the value read is the digits with the point removed, signed, divided by ten to the number of fraction digits |
| Php.ToInt | includes/schema.php:244-245 | (int) truncates the value read by (float) toward zero, and is positive exactly when that value is at least 1 |
| Decimal.NatToString | includes/schema.php:152 | the decimal spelling of an array key is all digits, reads back as the key, and has no leading zero: it starts with '0' only when it is exactly "0" |
| Decimal.IntegerPartTruncates | includes/schema.php:244-245 | (int) of a numeric string is its exact value truncated toward zero, and is positive exactly when the value is at least 1 |
| JsonValue.PutInSlot | includes/schema.php:132 | assigning to a key already present replaces its value in its original slot |
| JsonValue.PutGet | includes/schema.php:132 | after an assignment the key reads back the assigned value |
| JsonValue.PutGetOther | includes/schema.php:133-152 | an assignment leaves every other key's value unchanged |
| Frontend.PositionCounter.constructor | wp-ranked-list-blocks.php:118 | before any reset the global counter is unset |
| Frontend.PositionCounter.Reset | wp-ranked-list-blocks.php:108-111 | the counter is set to 0 |
| Frontend.PositionCounter.GetPosition | wp-ranked-list-blocks.php:117-123 | an unset counter counts as 0; the counter goes up by exactly one and the new value is returned |
| Frontend.ResetForContent | wp-ranked-list-blocks.php:36-39 | the content filter resets the counter to 0 and returns its content unchanged |
| Frontend.ButtonText | wp-ranked-list-blocks.php:55 | the label is urlButtonText when it is not empty(), otherwise "View site"; it is never empty |
| Frontend.RenderOf | wp-ranked-list-blocks.php:45-97 | a block prints nothing exactly when its title is empty(); otherwise it shows its position and its title, and the title link and link button appear exactly when url is set, the button then carrying its label |
| Frontend.LinkButton | wp-ranked-list-blocks.php:77-97 | the link button is present exactly when url is truthy, and then carries urlButtonText or "View site", never an empty label |
| Frontend.RenderCallback | wp-ranked-list-blocks.php:45-59 | the callback takes a position before it looks at the title, so an untitled block uses one up and returns '' |
| Frontend.RenderContent | wp-ranked-list-blocks.php:36-59 | after the reset, the n-th block of a content render gets position n, whatever its title, and the counter ends at the number of blocks |
| Frontend.PageMatchesSchema | wp-ranked-list-blocks.php:46-59 | each list element of the structured data belongs to a block the page prints, and its position is the one that block shows |
| Frontend.RenderedAreSurvivors | wp-ranked-list-blocks.php:57-59 | a block prints markup exactly when it is among the records emitted into the structured data |
| Editor.EditorPosition | src/edit.js:77-95 | the selector loop returns the number of ranked siblings up to and including the block, or the total number of ranked siblings when the block is not found |
| Editor.FirstMatch | src/edit.js:85-90 | the loop stops at the earliest ranked sibling with the block's client id, and nothing earlier matches; when none matches, no entry does |
| Editor.PositionBounds | src/edit.js:84-92 | a found block's position is between 1 and the number of ranked siblings; a missing block gets that number |
| Editor.OtherBlocksIgnored | src/edit.js:85-86 | inserting a block of another kind anywhere in the order never changes the position |
| Editor.FirstMatchUnique | src/edit.js:87-89 | the first matching index is the only possible stopping point |
| Editor.Warnings | src/edit.js:98-127 | the list holds a warning exactly when its check fails, each at most once, in the order title, url, rating, review count, price; the text of each check is shown exactly when that check fails |
| Editor.MessageIdentifies | src/edit.js:100-125 | no two warnings push the same text |
| Editor.ShownListed | src/edit.js:100-125 | a warning's text is in the shown list exactly when that warning was pushed |
| Editor.AllRaisedListed | src/edit.js:98-127 | the warnings pushed by the five checks in turn are exactly the raised ones, in rank order |
| Editor.EmptyFieldsQuiet | src/edit.js:100-125 | an empty url, rating, review count or price never warns; the title warning is raised exactly when the title is empty |
| Editor.RatingWarningMatchesSchema | src/edit.js:108-112 | for a numeric rating, the editor warns exactly when the structured data would drop the rating value |
| Editor.OfferedPriceQuiet | src/edit.js:121-125 | a price that the structured data publishes as an offer never raises the price warning |
| Editor.ZeroTitleSilentlyDropped | src/edit.js:100-102 | a record titled "0" raises no editor warning, yet empty() counts the title as empty: the block renders nothing and the record is not among those emitted into the structured data |
| Editor.UrlMatches | src/edit.js:103 | an accepted URL is at least eight characters long and starts with "http" |
| Editor.UrlMatchesExtend | src/edit.js:103 | the pattern has no end anchor, so anything appended to an accepted URL is accepted too |
| Editor.JsParseFloat | src/edit.js:108 | a plain decimal reads as the same exact value PHP reads; a blank string, or one whose first visible character cannot start a number, is NaN |
| Editor.JsNumber | src/edit.js:113 | a blank string is 0, a plain decimal its exact value, and a string holding any visible character a number cannot hold is NaN |
| Editor.JsIsIntegerOfDecimal | src/edit.js:113 | for a plain decimal, Number.isInteger(Number(s)) holds exactly when every digit after the point is 0 |

## Left out

- WordPress host calls (`is_singular`, `get_post`, `has_blocks`, `parse_blocks`, `add_action`, `add_filter`, `register_block_type`) are not modelled; the view flag, the parsed blocks (None for a missing post or one without blocks) and the editor's sibling order are inputs.
- `wp_json_encode` and the `echo` into a script tag are not modelled: the model stops at the JSON value.
- HTML markup, escaping (`esc_html`, `esc_url`, `esc_attr`, `wp_kses_post`) and translation (`__`) in the render callback are not modelled; a rendered block is reduced to its position, its title and its link button (present or not, with its label).
- Frontend.RenderOf: tests the raw title for empty() where the code tests the escaped one. Escaping never turns a non-empty title empty, nor changes "0".
- Frontend.LinkButton: tests the raw url for truthiness where the code tests the result of `esc_url`, which can blank a url with a disallowed scheme (no link in the page, a link in the model) and turns "0" into a non-empty address (a link in the page, none in the model).
- The React components, hooks, media upload and date picker of the editor are not modelled. Only the position selector and the warnings are.
- Floating point is not modelled: PHP's `(float)` and JavaScript's `parseFloat` and `Number` give exact reals, and `(int)` truncates without 64-bit overflow.
- Php.IsNumeric: accepts an optional sign, digits and an optional fraction only. PHP also accepts exponents and leading or trailing white space, which the model rejects.
- Editor.JsParseFloat and Editor.JsNumber: do not read exponents, `Infinity` or hexadecimal forms, which therefore count as NaN or stop the prefix. Their white space omits the Unicode space separators (U+1680, U+2000 to U+200A, U+202F, U+205F, U+3000), which JavaScript also skips.
- The editor reads an unset attribute as "", which JavaScript treats the same way as `undefined` in every check modelled.
- Attribute values are strings. Non-string values in a block's attribute bag are not modelled.
- The position counter is not modelled under concurrent or interleaved renders; the code assumes renders do not interleave.
- Frontend.RenderContent: models the host's render sequence (the filter, then each block in order) as a loop. The host's own scheduling is not modelled.
- The `add_*` helpers take `$item` by reference. PHP arrays are values, so they are modelled as methods that return the updated item.
