# Spearfished: the post feed, its publishing paths and the species catalogue

Spearfished is an iOS app for spearfishers. They photograph a catch, tag it
with a species and a place, and publish it to a shared feed of posts stored in
a remote document store. The feed is shown as a list and on a map. The
repository holds two app targets that share this data:

- the **feed app** (`Spearfished/Spearfished/Spearfished`);
- the **catalog app** (`Spearfished/Spearfished`).

This project models the logic at the core of both, in Dafny, and proves what
that logic promises.

- **Feed synchronisation** (`PostManager.setupFirestoreListener`). A live query
  on the `posts` collection, newest first, delivers whole batches of documents.
  Each document is decoded on its own: one without a GeoPoint `location` is
  dropped, and missing fields fall back to fixed defaults. The decoded batch
  replaces the feed. A listener error is recorded and keeps the old feed; a
  missing snapshot changes nothing.
- **Publishing** (`PostManager.uploadPost`, `NewPostViewModel.createPost`).
  Both paths encode the photo, put it in the blob store under a fresh
  UUID-named path, resolve its download URL, and only then write one document
  built from that URL. Any step that fails ends the attempt.
- **The map filter** (`MapFeedView.validPosts`). It keeps exactly the posts
  whose coordinate is finite and within ±90° latitude and ±180° longitude.
- **The feed app's form** (`NewPostView`).
  - It reads a geotag from the photo's GPS metadata: the hemisphere reference
    decides the sign.
  - It checks the fields in order: image, username, fish type, location name,
    then location.
  - The location used is the geotag, else the device's location.
- **The catalog app's screen** (`NewPostView`, `NewPostViewModel`). It covers
  the place search, the map pick, the Post button's guards and the record it
  writes (`Post.toDictionary`).
- **Species.**
  - The catalog app's decoder strips HTML tags from the name, scientific
    name, habitat, location, population and fishing-rate fields and trims
    them; it stores the photo URL (the `src` entry) and the gallery
    unchanged. Its manager loads a static list of ten species.
  - The feed app's species type is a plain encode/decode pair, fetched over
    HTTP with a status-code check.
  - The fish-detail screen selects the first species whose name matches
    loosely: both names are lower-cased and trimmed, then compared for equality
    or containment in either direction.

Modelling choices:

- **Platform calls are inputs.** The store and blob SDKs, JPEG encoding, the
  clock and `UUID()` are modelled as recorded oracle answers (`Backend.Responses`).
  Each store call a publish attempt makes is returned as a trace of
  `Backend.StoreCall`. Both publish paths are specified by one function,
  `Backend.PublishRun`.
- **Screens and managers are classes.** A screen or manager whose fields the
  code updates is a Dafny class. Its methods state the complete new state.
  Pure code (decoders, filters, matching) is written as functions and lemmas.
- **Doubles.** A double is a finite real, NaN or a signed infinity
  (`Geo.Double`), which is enough to express `isFinite`, `abs` and `<=`.

Behaviour of the code worth knowing, kept in the model:

- The feed form checks, in this order, the image, the username, the fish
  type, the location name and the location.
- The resolved location is not range-checked before publishing.
- The feed's post id comes from the document key, not from the `id` field.
  Store-generated keys are not UUIDs, so every batch draws a fresh id.
- Species matching takes the first species that matches by equality or
  containment. An exact match gets no preference (`FishMatch.ExactMatchNotPreferred`).
- A successful snapshot batch does not clear an earlier listener error.

- A photo without GPS tags keeps the previous photo's geotag (`NewPostForm.NewPostView.ExtractLocationFromImage`).
- The catalog app's Post button dismisses the screen even when creating the post fails, because the error is discarded by `try?` (`NewPostFlow.NewPostScreen.PostTapped`).

## Model

Paths are relative to the repository root.

| member | source | states |
|---|---|---|
| Backend.WriteOnlyAfterUpload | Spearfished/Spearfished/Spearfished/Managers/PostManager.swift:100-123 | any document write is the third and last call, made only after the put and the URL resolution of the same blob path succeeded; the document is built from the resolved URL |
| Backend.PublishSucceedsIffAllStepsSucceed | Spearfished/Spearfished/Spearfished/Managers/PostManager.swift:96-136 | a publish completes exactly when encoding, put, URL resolution and write all succeed, and it then made exactly those three store calls |
| Backend.EarlyFailureStopsTheRun | Spearfished/Spearfished/Spearfished/Managers/PostManager.swift:100-108 | a failed encoding throws before any store call; a failed put is followed by nothing; a failed URL resolution is followed by no write |
| Backend.ParseUuid | Spearfished/Spearfished/Spearfished/Managers/PostManager.swift:77 | `UUID(uuidString:)` yields a UUID exactly for 36-character hyphenated hex text, and its `uuidString` is that text upper-cased |
| Geo.Double.Negated | Spearfished/Spearfished/Spearfished/Screens/NewPostView.swift:36-37 | negation keeps finiteness and negates a finite value |
| Geo.Double.Magnitude | Spearfished/Spearfished/Spearfished/Screens/MapFeedView.swift:24-25 | `abs` keeps finiteness and gives a non-negative value equal to the input or its negation |
| PostManager.DecodeDocument | Spearfished/Spearfished/Spearfished/Managers/PostManager.swift:69-86 | a document yields a post exactly when its `location` is a GeoPoint, and the post carries that location |
| PostManager.DecodeSnapshot | Spearfished/Spearfished/Spearfished/Managers/PostManager.swift:69 | the decoded batch is never longer than the document batch |
| PostManager.DecodeSnapshotAppend | Spearfished/Spearfished/Spearfished/Managers/PostManager.swift:69-86 | decoding a concatenated batch is concatenating the decodings, so no document affects another's result |
| PostManager.MalformedDocumentDropped | Spearfished/Spearfished/Spearfished/Managers/PostManager.swift:69-74 | a document without a GeoPoint location is dropped, and the rest of the batch decodes as if it were absent |
| PostManager.WellFormedDocumentKept | Spearfished/Spearfished/Spearfished/Managers/PostManager.swift:69-86 | a document with a GeoPoint yields exactly one post, in its own position in the batch |
| PostManager.KeptDocumentsKeepOrder | Spearfished/Spearfished/Spearfished/Managers/PostManager.swift:69-86 | two kept documents appear in the feed in their batch order |
| PostManager.DecodedTimestampsBounded | Spearfished/Spearfished/Spearfished/Managers/PostManager.swift:81 | when every document has a stored timestamp at most `bound`, every decoded post's timestamp is at most `bound` |
| PostManager.DecodedNewestFirst | Spearfished/Spearfished/Spearfished/Managers/PostManager.swift:53-54 | a batch delivered newest first decodes to a feed that is newest first |
| PostManager.MissingFieldsDefault | Spearfished/Spearfished/Spearfished/Managers/PostManager.swift:77-84 | in a kept document each missing or mistyped field decodes to its own default ("", "Anonymous", "Unknown", "", ""), a missing timestamp to the current time and a non-UUID key to a fresh id, whatever the other fields hold |
| PostManager.PresentFieldsKept | Spearfished/Spearfished/Spearfished/Managers/PostManager.swift:77-84 | in a kept document each field holding a value of the expected type decodes to that value, whatever the other fields hold, and a UUID key becomes the id |
| PostManager.MixedDocumentExample | Spearfished/Spearfished/Spearfished/Managers/PostManager.swift:76-85 | a document with a username but no image URL keeps the name and defaults only the missing fields |
| PostManager.UploadDocument | Spearfished/Spearfished/Spearfished/Managers/PostManager.swift:112-120 | the uploaded document has exactly the seven keys imageUrl, description, location, locationName, username, fishType and timestamp |
| PostManager.ListenerReadsBackUpload | Spearfished/Spearfished/Spearfished/Managers/PostManager.swift:76-85 | the listener decodes an uploaded document to a post with every uploaded value; only the id comes from the document key |
| PostManager.PostManager.constructor | Spearfished/Spearfished/Spearfished/Managers/PostManager.swift:22-49 | a mocked manager starts with the two sample posts, a live one with none; not loading, no error |
| PostManager.PostManager.OnSnapshot | Spearfished/Spearfished/Spearfished/Managers/PostManager.swift:55-89 | an error sets `error` and keeps `posts`; a nil snapshot changes nothing; a batch replaces `posts` wholesale with its decoding |
| PostManager.PostManager.UploadPost | Spearfished/Spearfished/Spearfished/Managers/PostManager.swift:92-137 | the calls and outcome are those of the encode, put, resolve, write sequence; `posts` is untouched, `isLoading` ends false, and `error` holds the failure message exactly when the attempt fails |
| MapFeed.DisplayableMeansInRange | Spearfished/Spearfished/Spearfished/Screens/MapFeedView.swift:22-25 | the filter condition holds exactly for finite coordinates in [-90, 90] by [-180, 180] |
| MapFeed.ValidPosts | Spearfished/Spearfished/Spearfished/Screens/MapFeedView.swift:20-27 | the result is no longer than the feed, and every kept post is from the feed and displayable |
| MapFeed.ValidPostsKeepsExactlyTheValid | Spearfished/Spearfished/Spearfished/Screens/MapFeedView.swift:21-26 | a post is kept exactly when it is in the feed and displayable |
| MapFeed.ValidPostsIsSubsequence | Spearfished/Spearfished/Spearfished/Screens/MapFeedView.swift:21 | the kept posts are an order-preserving subsequence of the feed |
| MapFeed.ValidPostsAppend | Spearfished/Spearfished/Spearfished/Screens/MapFeedView.swift:21 | filtering a concatenation is concatenating the filtered parts |
| MapFeed.ValidPostsIdempotent | Spearfished/Spearfished/Spearfished/Screens/MapFeedView.swift:21-26 | filtering the filtered feed changes nothing |
| MapFeed.SinglePost | Spearfished/Spearfished/Spearfished/Screens/MapFeedView.swift:21-26 | a one-post feed keeps its post exactly when its coordinate is displayable |
| MapFeed.BoundaryCornersKept | Spearfished/Spearfished/Spearfished/Screens/MapFeedView.swift:24-25 | (±90, ±180) and (0, 0) are kept because the comparisons include the bounds |
| MapFeed.OutOfRangeDropped | Spearfished/Spearfished/Spearfished/Screens/MapFeedView.swift:22-25 | latitude 91, longitude -181, NaN and an infinity are dropped |
| MapFeed.MockPostsDisplayable | Spearfished/Spearfished/Spearfished/Managers/PostManager.swift:30-49 | both sample posts of the mocked manager pass the map filter |
| NewPostForm.GeotagSignRule | Spearfished/Spearfished/Spearfished/Screens/NewPostView.swift:26-39 | for any properties whose `{GPS}` dictionary holds the four tags, whatever else they carry, the latitude is the raw value under "N" and negated otherwise; the longitude likewise under "E" |
| NewPostForm.OnlyNorthAndEastArePositive | Spearfished/Spearfished/Spearfished/Screens/NewPostView.swift:36-37 | any reference other than exactly "N" or "E" negates a finite value |
| NewPostForm.WesternHemisphereExample | Spearfished/Spearfished/Spearfished/Screens/NewPostView.swift:26-39 | a photo tagged 25.5 N, 80.2 W, with other metadata beside the tags, is placed at (25.5, -80.2) |
| NewPostForm.MissingTagMeansNoGeotag | Spearfished/Spearfished/Spearfished/Screens/NewPostView.swift:26-34 | there is no geotag exactly when the properties are unreadable, `{GPS}` is absent or not a dictionary, or one of the four tags is missing or of another type |
| NewPostForm.TextLatitudeMeansNoGeotag | Spearfished/Spearfished/Spearfished/Screens/NewPostView.swift:31-34 | a latitude stored as text gives no geotag, whatever the other tags hold |
| NewPostForm.CheckFormReportsFirstFailure | Spearfished/Spearfished/Spearfished/Screens/NewPostView.swift:132-160 | each alert is raised exactly when its check is the first to fail, in the order image, username, fish type, location name, location |
| NewPostForm.CheckFormAccepts | Spearfished/Spearfished/Spearfished/Screens/NewPostView.swift:132-160 | the form passes exactly when all fields are filled and a location is known, and it uses the geotag in preference to the device location |
| NewPostForm.NewPostView.constructor | Spearfished/Spearfished/Spearfished/Screens/NewPostView.swift:9-22 | the form starts empty with no image, no geotag, no alert and not loading |
| NewPostForm.NewPostView.ExtractLocationFromImage | Spearfished/Spearfished/Spearfished/Screens/NewPostView.swift:24-42 | `imageLocation` becomes the geotag when all four tags are present and keeps its previous value otherwise |
| NewPostForm.NewPostView.PhotoLoaded | Spearfished/Spearfished/Spearfished/Screens/NewPostView.swift:61-69 | a loaded photo becomes the selected image and its geotag is extracted; a failed load changes nothing |
| NewPostForm.NewPostView.UploadPost | Spearfished/Spearfished/Spearfished/Screens/NewPostView.swift:131-180 | a failed check raises its alert and uploads nothing; otherwise the upload runs at the resolved location, success dismisses the form, failure raises its message, `isLoading` ends false |
| PostRecord.NewPost | Spearfished/Spearfished/Models/Post.swift:21-31 | every argument is stored in the field of the same name, and a missing id is a fresh UUID's string |
| PostRecord.ToDictionary | Spearfished/Spearfished/Models/Post.swift:33-44 | the document has exactly the eight keys id, username, timestamp, imageUrl, fishType, description, location and locationName |
| PostRecord.ToDictionaryFields | Spearfished/Spearfished/Models/Post.swift:35-42 | each document value is the record field of the same name |
| PostRecord.ToDictionaryRoundTrip | Spearfished/Spearfished/Models/Post.swift:33-44 | reading the document back gives the record, so the mapping loses nothing |
| PostRecord.FeedReadsCatalogPost | Spearfished/Spearfished/Models/Post.swift:33-44 | the feed app's listener decodes a catalog app document to a post with the same location, URL, author, time, species, caption and place |
| NewPostFlow.NoPhotoNoCalls | Spearfished/Spearfished/Screens/NewPostView.swift:236 | without a photo `createPost` returns normally having called no store |
| NewPostFlow.WrittenRecord | Spearfished/Spearfished/Screens/NewPostView.swift:239-254 | the write follows the put and the URL resolution, and the record has the resolved URL, the email or "Anonymous", the caption, and the location or (0, 0) |
| NewPostFlow.NewPostViewModel.constructor | Spearfished/Spearfished/Screens/NewPostView.swift:196-199 | no photo, no location, cannot post |
| NewPostFlow.NewPostViewModel.ImageSelectionLoaded | Spearfished/Spearfished/Screens/NewPostView.swift:200-217 | a photo that loads becomes `postImage`; a failed load keeps the old one |
| NewPostFlow.NewPostViewModel.UploadImage | Spearfished/Spearfished/Screens/NewPostView.swift:222-233 | an encoding failure throws before any call; a put failure is followed by nothing; otherwise the URL is the one resolved for the same `post_images/` path |
| NewPostFlow.NewPostViewModel.CreatePost | Spearfished/Spearfished/Screens/NewPostView.swift:235-258 | the calls and outcome are those of `CreatePostRun`: nothing without a photo, otherwise upload then one write of the record |
| NewPostFlow.NewPostScreen.constructor | Spearfished/Spearfished/Screens/NewPostView.swift:22-29 | the screen starts with the species placeholder, no location and no search, with the Post button disabled |
| NewPostFlow.NewPostScreen.SearchLocation | Spearfished/Spearfished/Screens/NewPostView.swift:161-168 | an empty query clears the results and ends the search; any other query starts one |
| NewPostFlow.NewPostScreen.SearchCompleted | Spearfished/Spearfished/Screens/NewPostView.swift:175-182 | a response replaces the results; an error keeps them |
| NewPostFlow.NewPostScreen.SelectLocation | Spearfished/Spearfished/Screens/NewPostView.swift:185-187 | the selected location is the item's coordinate and the location name is its name, or "" without one |
| NewPostFlow.NewPostScreen.ChooseSearchResult | Spearfished/Spearfished/Screens/NewPostView.swift:89-94 | tapping a hit selects it, ends the search and clears the query and the results |
| NewPostFlow.NewPostScreen.PostTapped | Spearfished/Spearfished/Screens/NewPostView.swift:134-149 | with no selected location nothing happens; otherwise the post is created at that location and the screen is dismissed whether or not creation failed |
| Text.Trim | Spearfished/Spearfished/Models/FishSpecies.swift:31 | the result is the slice of the input between its leading and trailing set characters, has no set character at either end, and is empty only when every character is in the set |
| Text.Lowercased | Spearfished/Spearfished/Screens/FishDetailView.swift:140-141 | the result has the input's length and maps each character to its lower-case form |
| Text.ContainsMeansOccurs | Spearfished/Spearfished/Screens/FishDetailView.swift:145-146 | `contains` holds exactly when the second string occurs at some offset of the first |
| Text.ContainsSelfAndEmpty | Spearfished/Spearfished/Screens/FishDetailView.swift:145-146 | every string contains itself and the empty string |
| Json.DecodeString | Spearfished/Spearfished/Models/FishSpecies.swift:34 | a required read succeeds exactly when the key holds a string, and an absent key is `keyNotFound` |
| Json.DecodeStringIfPresent | Spearfished/Spearfished/Models/FishSpecies.swift:37 | an optional read succeeds exactly when the key is absent, null or a string, and gives that string or nil |
| Json.DecodeStringMapIfPresent | Spearfished/Spearfished/Models/FishSpecies.swift:55 | an optional dictionary read succeeds exactly when the key is absent, null or a string-valued object, and keeps its entries |
| Json.DecodeStringArrayIfPresent | Spearfished/Spearfished/Models/FishSpecies.swift:62 | an optional array read succeeds exactly when the key is absent, null or an array of strings, and keeps its elements in order |
| FishCatalog.StripTagsTagFree | Spearfished/Spearfished/Models/FishSpecies.swift:30 | after replacing `<[^>]+>` no position starts a match of the pattern |
| FishCatalog.StripTagsOfTagFree | Spearfished/Spearfished/Models/FishSpecies.swift:30 | a string with no match is left unchanged, so the replacement is idempotent |
| FishCatalog.CleanHTMLIsClean | Spearfished/Spearfished/Models/FishSpecies.swift:29-32 | `cleanHTML` output has no tag and no leading or trailing whitespace or newline |
| FishCatalog.CleanHTMLIdempotent | Spearfished/Spearfished/Models/FishSpecies.swift:29-32 | cleaning a cleaned string changes nothing |
| FishCatalog.DecodeSucceedsIff | Spearfished/Spearfished/Models/FishSpecies.swift:26-79 | decoding succeeds exactly when "Species Name" is a string and every other key is absent, null or of its declared type |
| FishCatalog.DecodeNeedsSpeciesName | Spearfished/Spearfished/Models/FishSpecies.swift:34-35 | without "Species Name" decoding fails with `keyNotFound`; otherwise the name is the cleaned raw value |
| FishCatalog.DecodedFields | Spearfished/Spearfished/Models/FishSpecies.swift:37-77 | each optional text field is nil when absent or null and cleaned when present; the photo is the "src" entry; the gallery is passed through unchanged |
| FishCatalog.DecodedTextIsClean | Spearfished/Spearfished/Models/FishSpecies.swift:34-77 | every decoded text field is clean |
| FishCatalog.InitDoesNotClean | Spearfished/Spearfished/Models/FishSpecies.swift:81-91 | the memberwise initialiser keeps a name with leading whitespace, which decoding would trim |
| FishCatalog.CommonSpecies | Spearfished/Spearfished/Models/FishSpecies.swift:114-195 | the static list has ten species |
| FishCatalog.CommonSpeciesFacts | Spearfished/Spearfished/Models/FishSpecies.swift:114-195 | the list runs from "Mahi Mahi", then "Red Snapper", to "Barracuda"; no two entries share a name; each has its four text fields and two rating fields and no photo or gallery |
| FishCatalog.FishSpeciesManager.constructor | Spearfished/Spearfished/Models/FishSpecies.swift:95-110 | the manager starts with no species |
| FishCatalog.FishSpeciesManager.FetchFishSpecies | Spearfished/Spearfished/Models/FishSpecies.swift:112-201 | `species` becomes the static list |
| FishCodec.RawValueInjective | Spearfished/Spearfished/Spearfished/Models/FishSpecies.swift:23-30 | the six coding keys have distinct JSON names |
| FishCodec.Encode | Spearfished/Spearfished/Spearfished/Models/FishSpecies.swift:42-43 | the encoding is a keyed container, a JSON object |
| FishCodec.EncodedKeySet | Spearfished/Spearfished/Spearfished/Models/FishSpecies.swift:42-50 | the encoding always has "Species Name" and has each optional key exactly when its value is non-nil |
| FishCodec.EncodedName | Spearfished/Spearfished/Spearfished/Models/FishSpecies.swift:44 | the name is stored as a JSON string under "Species Name" |
| FishCodec.EncodedOptionals | Spearfished/Spearfished/Spearfished/Models/FishSpecies.swift:45-49 | each non-nil optional is stored as a JSON string under its own key |
| FishCodec.Decode | Spearfished/Spearfished/Spearfished/Models/FishSpecies.swift:32-40 | without "Species Name" decoding fails with `keyNotFound`; a decoded name is the stored string |
| FishCodec.DecodeOptionalFields | Spearfished/Spearfished/Spearfished/Models/FishSpecies.swift:35-39 | each optional field is nil exactly when its key is absent or null |
| FishCodec.RoundTrip | Spearfished/Spearfished/Spearfished/Models/FishSpecies.swift:32-50 | decoding an encoded species gives back all six fields |
| FishCodec.DecodeItems | Spearfished/Spearfished/Spearfished/Models/FishSpecies.swift:79 | a decoded list decodes element by element; a failure is the error of some element |
| FishCodec.ListRoundTrip | Spearfished/Spearfished/Spearfished/Models/FishSpecies.swift:79 | decoding an encoded list gives back the list |
| FishCodec.NonOkStatusRejected | Spearfished/Spearfished/Spearfished/Models/FishSpecies.swift:68-70 | a non-HTTP or non-200 response is `badServerResponse`, whatever the body |
| FishCodec.FetchReadsEncodedList | Spearfished/Spearfished/Spearfished/Models/FishSpecies.swift:66-79 | a 200 response carrying an encoded list yields that list |
| FishCodec.FishSpeciesManager.constructor | Spearfished/Spearfished/Spearfished/Models/FishSpecies.swift:54-59 | the manager starts with no species |
| FishCodec.FishSpeciesManager.FetchFishSpecies | Spearfished/Spearfished/Spearfished/Models/FishSpecies.swift:61-80 | success replaces `species` wholesale with the decoded list; any error is thrown and leaves `species` unchanged |
| FishMatch.MatchesSymmetric | Spearfished/Spearfished/Screens/FishDetailView.swift:144-146 | swapping the two names does not change the verdict |
| FishMatch.EqualNormalizedMatch | Spearfished/Spearfished/Screens/FishDetailView.swift:144 | names with equal normalised forms always match |
| FishMatch.MatchesReflexive | Spearfished/Spearfished/Screens/FishDetailView.swift:144 | every name matches itself |
| FishMatch.NormalizationIgnoresCaseAndPadding | Spearfished/Spearfished/Screens/FishDetailView.swift:140-141 | lower-casing first or adding a leading space does not change the normalised name |
| FishMatch.OccurrenceMatches | Spearfished/Spearfished/Screens/FishDetailView.swift:145 | a name whose normalised form occurs inside the other's matches |
| Sequences.FirstWhere | Spearfished/Spearfished/Screens/FishDetailView.swift:139 | `first(where:)` is nil exactly when no element passes the test; otherwise it is an element that passes with none passing before it |
| FishMatch.FirstMatch | Spearfished/Spearfished/Screens/FishDetailView.swift:139-147 | nil exactly when no species matches; otherwise a matching species with no match before it |
| FishMatch.BlankSearchMatchesFirst | Spearfished/Spearfished/Screens/FishDetailView.swift:139-147 | a search that is blank after trimming selects the first species of any non-empty list |
| FishMatch.FirstMatchAt | Spearfished/Spearfished/Screens/FishDetailView.swift:139-147 | a matching species with no match before it is the one selected |
| FishMatch.SnapperSelectsRedSnapper | Spearfished/Spearfished/Screens/FishDetailView.swift:139-147 | on the static list any search that normalises to "snapper" selects "Red Snapper", ahead of "Yellowtail Snapper" |
| FishMatch.ExactMatchNotPreferred | Spearfished/Spearfished/Screens/FishDetailView.swift:139-147 | an earlier containing match wins over a later exact one |
| FishMatch.FishDetailView.constructor | Spearfished/Spearfished/Screens/FishDetailView.swift:3-9 | no selection, not loading, no error, an empty catalogue |
| FishMatch.FishDetailView.SelectFish | Spearfished/Spearfished/Screens/FishDetailView.swift:139-147 | the selection becomes the first match in the manager's list; the loading flag and the error are untouched |
| FishMatch.FishDetailView.FetchFishData | Spearfished/Spearfished/Screens/FishDetailView.swift:129-158 | the catalogue is loaded, the selection is the first match for the screen's name, there is no error and loading has ended |

## Left out

- Asynchrony (`Task`, `MainActor`, `async` callbacks) is left out. Each callback and each publish is one sequential step. The intermediate `isLoading == true` state is set in the methods but is not visible in their postconditions.
- The store, blob, auth, local-search, photo-picker and image-source SDKs, and URLSession, are left out: they are foreign calls. Their answers are inputs:
  - `Backend.Responses` for the store and blob answers;
  - `FishCodec.Transfer` for the HTTP fetch;
  - the item list for the local search;
  - an already-parsed property map for the image metadata;
  - the current user's email and the device location as parameters.
- `UUID()` and `Date()` are left out as generators. Their values are inputs: `Responses.blobName`, `postId` and `now`, and `PostManager.FreshValues` drawn per document key.
- Floating-point arithmetic is left out: a finite double is an exact real, and rounding is not modelled.
- The SDK's own range check in `GeoPoint(latitude:longitude:)` is left out, since it is SDK code.
- Text.Contains follows the Swift 5.7+ standard-library `contains`, for which the empty string is contained in every string; Foundation's `NSString`-based `contains` on older SDKs answers false for an empty needle. `FishMatch.BlankSearchMatchesFirst` depends on this choice.
- Text.Contains and the `==` of normalised names compare characters one by one; the Unicode canonical equivalence that Swift's `String` comparison applies is not modelled.
- `Text.Lowercased` maps only the ASCII letters; the Unicode case mapping of `lowercased()` is outside the model.
- Only the one regular expression the code uses, `<[^>]+>`, is modelled (as `FishCatalog.StripTags`); a general regex engine is out of scope.
- Json.DecodeStringMapIfPresent reports a `null` value inside the dictionary as `TypeMismatch`; `JSONDecoder` reports it as `valueNotFound`. Which error comes back does not change whether decoding succeeds.
- Json.DecodeStringArrayIfPresent reports a `null` element inside the array as `TypeMismatch`; `JSONDecoder` reports it as `valueNotFound`. Which error comes back does not change whether decoding succeeds.
- The listener registration and its removal in `deinit` are left out: they are lifecycle plumbing with no logic.
- Logging with `print` is left out because it has no effect on state.
- `FishSpecies.id = UUID()` and the `ObservableObject`/`@Published` machinery are left out: they give identity for list rendering only.
- The catalog app's `FishSpeciesManager` session configuration (timeout and headers) is left out because the session is never used.
- The `URL(string:)` guard in the feed app's `fetchFishSpecies` is left out: its URL is a constant that always parses, so `badURL` cannot occur.
- FishMatch.FishDetailView.FetchFishData never sets `errorMessage`. Its manager is the catalog app's, whose fetch loads a static list and cannot throw, so the `catch` branch is unreachable.
- The camera position changed by `selectLocation` is left out: it is map presentation.
- The species picker that fills the catalog app's screen is left out, and so are all view bodies, layout and navigation: they are UI.
- `NewPostViewModel.canPost` and `imageLocation` are fields that the code never updates; they keep their initial values.
