# Fyyur booking site — a verified model of its handler logic

Fyyur is a Flask application that lists music venues and artists and the
shows that book one at the other. All of its logic sits in the route
handlers of `app.py`. This project restates that logic in Dafny over an
in-memory store of three tables, and proves what the handlers promise:

- the `/venues` page groups every venue by its (city, state) pair, one group
  per distinct pair, each venue tagged with its number of upcoming shows;
- the venue and artist pages split a record's shows into past and upcoming
  lists, and report each list's length;
- genre lists are stored as one comma-joined string and read back by
  splitting on commas;
- the artist search keeps the artists whose name contains the term,
  ignoring case, and reports how many it found;
- deleting a venue also deletes its shows, and the edit forms overwrite
  every editable field of a venue or an artist.

Show start times are integers (larger is later), and the current instant
`now` is a parameter of every handler that reads the clock.

Modules, one per file:

- `Sequences`: order-preserving selection (`Filter`), which every list
  comprehension, `filter_by` query and "append if it matches" loop of the
  handlers goes through, with its partition and concatenation lemmas.
- `Records`: the `Venue`, `Artist` and `Show` rows, lookup by primary key,
  the `venue.shows` / `artist.shows` relationships, and the store's
  integrity (unique keys, resolving foreign keys).
- `Genres`: the genre codec and its round trips.
- `Timeline`: the past/upcoming split of the detail pages and the upcoming
  count of the listings. They use different boundaries, and both are kept.
- `Listing`: the `/venues` page.
- `Search`: the artist search.
- `Detail`: the venue and artist pages.
- `Directory`: the store as a class, with the delete and edit operations.
- `SampleData`: the fixture of `add_sample_data.py`, with facts about it.

## Model

| member | source | states |
|---|---|---|
| `Records.VenueIndex` | app.py:210-214 | `Venue.query.get`: a found position holds the venue with that key; None means no venue has it |
| `Records.ArtistIndex` | app.py:422-426 | `Artist.query.get`: a found position holds the artist with that key; None means no artist has it |
| `Records.ShowsAtVenue` | app.py:216 | `filter_by(venue_id=...)` holds exactly the table's shows booked at the venue |
| `Records.ShowsByArtist` | app.py:428 | `filter_by(artist_id=...)` holds exactly the table's shows by the artist |
| `Records.ShowsElsewhere` | app.py:336 | what the show table keeps after the cascade: exactly the shows booked at another venue |
| `Sequences.Filter` | app.py:166 | a comprehension keeps exactly the elements satisfying its condition, never more elements than the input |
| `Sequences.FilterIsSubsequence` | app.py:223-234 | selection keeps the input's relative order |
| `Sequences.FilterComplement` | app.py:231-234 | a condition and its negation split a list without losing or duplicating an element (lengths and multisets add up) |
| `Genres.Split` | app.py:237 | `str.split(',')` gives one piece more than there are commas, and no piece holds a comma |
| `Genres.Join` | app.py:305 | `','.join` of comma-free parts holds exactly one comma between neighbouring parts |
| `Genres.Decode` | app.py:237 | `s.split(',') if s else []` is empty exactly for the empty string, and its genres hold no comma |
| `Genres.Encode` | app.py:631 | the stored string is empty exactly for the empty list and the list holding one empty name |
| `Genres.JoinSplit` | app.py:237 | joining the pieces of a split gives back the string |
| `Genres.SplitJoin` | app.py:305 | splitting a join of comma-free parts gives back the parts |
| `Genres.EncodeDecode` | app.py:544 | storing a decoded genre string reproduces it exactly, for every string |
| `Genres.DecodeEncode` | app.py:449 | a list of comma-free names other than `[""]` survives being stored and read back |
| `Genres.LossyCases` | app.py:672 | a name containing a comma comes back as two names, and `[""]` comes back as `[]` |
| `Timeline.PastOf` | app.py:231-232 | the `past_shows` list holds exactly the entries starting strictly before `now` |
| `Timeline.UpcomingOf` | app.py:233-234 | the `upcoming_shows` list holds exactly the entries starting at or after `now` |
| `Timeline.SplitByTime` | app.py:220-234 | the loop builds exactly `PastOf` and `UpcomingOf` of the entries, whose lengths add up to the number of entries |
| `Timeline.SplitIsPartition` | app.py:443-446 | the split is a partition: lengths and multisets add up, and both lists keep the input order |
| `Timeline.NothingPastYet` | app.py:443-446 | when no entry starts before `now`, nothing is past and everything is upcoming, in order |
| `Timeline.UpcomingShows` | app.py:397 | the comprehension keeps exactly the shows starting strictly after `now` |
| `Timeline.ShowsStartingAt` | app.py:231 | the shows starting exactly at `now`, on which the two conventions disagree |
| `Timeline.CountUpcoming` | app.py:166 | `num_upcoming_shows` is at most the number of shows |
| `Timeline.CountUpcomingCountsPositions` | app.py:397 | `num_upcoming_shows` equals the number of positions holding a show that starts after `now` |
| `Timeline.CountUpcomingAntitone` | app.py:166 | a later `now` never counts more upcoming shows |
| `Listing.VenuesAt` | app.py:163-164 | the venues of a group are exactly the table's venues with that city and state, in table order |
| `Listing.VenuesIn` | app.py:162-164 | the venues at any of a set of locations are exactly the table's venues with such a location |
| `Listing.Summarize` | app.py:166-171 | a venue's entry carries its id and name, and `num_upcoming_shows` equals the number of the venue's shows starting strictly after `now` |
| `Listing.SummarizeAll` | app.py:162-171 | one entry per venue, in the same order |
| `Listing.AreaOf` | app.py:172-176 | a group carries its own city and state and one entry per venue there |
| `Listing.GroupByLocation` | app.py:150-176 | an empty table gives no group; otherwise one group per distinct (city, state), none twice, each holding exactly its venues, every venue listed once overall, for any walk order of the location set |
| `Listing.CollectLocations` | app.py:157-159 | the first loop builds the set of distinct (city, state) pairs |
| `Listing.CollectArea` | app.py:162-176 | the inner loop builds the group of one location |
| `Listing.EachVenueInOneArea` | app.py:156-176 | each venue's entry is in the group of its own (city, state), and in no other group |
| `Listing.NoVenuesNoAreas` | app.py:151-153 | the page has no group exactly when there is no venue |
| `Listing.VenuesInAddLocation` | app.py:161-176 | handling one more location lists exactly that location's venues more |
| `Search.LowerChar` | app.py:390 | ASCII case folding turns each upper-case letter into the same letter in lower case and leaves every other character as it is |
| `Search.LowerCharEqual` | app.py:390 | two characters fold to the same one exactly when they are equal or are one ASCII letter in its two cases |
| `Search.Lower` | app.py:390 | a string folded character by character, same length |
| `Search.Contains` | app.py:390 | the substring test holds exactly when the term occurs at some position of the name |
| `Search.Matching` | app.py:390 | the query result holds exactly the table's artists whose name matches the term |
| `Search.SummarizeArtist` | app.py:397-403 | an artist's entry carries its id and name, and `num_upcoming_shows` equals the number of the artist's shows starting strictly after `now` |
| `Search.SummarizeArtists` | app.py:395-403 | one entry per hit, in the same order |
| `Search.SearchArtists` | app.py:387-408 | the response holds one entry per matching artist in table order, and its count is the length of its data |
| `Search.SearchFindsExactly` | app.py:390-403 | with unique keys, an artist's entry is in the response exactly when its name matches the term |
| `Search.EmptyTermMatchesAll` | app.py:387-390 | the default term "" matches every artist |
| `Search.MatchIgnoresCase` | app.py:390 | matching ignores the case of the name and of the term |
| `Search.LowerIdempotent` | app.py:390 | folding case twice is folding it once |
| `Detail.JoinArtists` | app.py:216-229 | every row is the artist id, name and image of a show's existing artist with that show's start time; every show whose artist exists yields its row; the rows are never more than the shows, and exactly as many when every artist exists |
| `Detail.JoinArtistsRowByRow` | app.py:216-229 | when every show's artist exists, the join lists one row per show in the shows' order: row k is the artist id, name and image of show k with its start time |
| `Detail.JoinVenues` | app.py:428-441 | every row is the venue id, name and image of a show's existing venue with that show's start time; every show whose venue exists yields its row; the rows are never more than the shows, and exactly as many when every venue exists |
| `Detail.JoinVenuesRowByRow` | app.py:428-441 | when every show's venue exists, the join lists one row per show in the shows' order: row k is the venue id, name and image of show k with its start time |
| `Detail.ShowVenue` | app.py:207-257 | None (the 404) exactly for an unknown id; otherwise the venue's fields, its decoded genres, the split of its joined shows at `now`, and each list's length |
| `Detail.ShowArtist` | app.py:419-468 | None (the 404) exactly for an unknown id; otherwise the artist's fields, its decoded genres, the split of its joined shows at `now`, and each list's length |
| `Detail.VenuePageCountsAllShows` | app.py:255-256 | in a well-formed store the two counts of a venue page add up to the venue's number of shows |
| `Detail.ArtistPageCountsAllShows` | app.py:466-467 | in a well-formed store the two counts of an artist page add up to the artist's number of shows |
| `Detail.UpcomingPageVersusCount` | app.py:231-234 | the number of shows a page lists as upcoming is the listing's upcoming count plus the number of shows starting exactly at `now` |
| `Detail.ShowAtNowListedNotCounted` | app.py:166 | one show starting at `now` is listed as upcoming on the page and not counted on the listing |
| `Directory.ApplyVenueForm` | app.py:626-636 | the edit keeps the venue's primary key |
| `Directory.ApplyArtistForm` | app.py:540-549 | the edit keeps the artist's primary key |
| `Directory.ResubmitVenueFormUnchanged` | app.py:581 | submitting the pre-filled venue form unchanged leaves the venue exactly as it was |
| `Directory.ResubmitArtistFormUnchanged` | app.py:496 | submitting the pre-filled artist form unchanged leaves the artist exactly as it was |
| `Directory.VenueFormOf` | app.py:575-586 | the `edit_venue` form shows every stored field of the venue, the genres as their decoded list, which stores back to the same string |
| `Directory.ArtistFormOf` | app.py:491-501 | the `edit_artist` form shows every stored field of the artist, the genres as their decoded list, which stores back to the same string |
| `Directory.EditSetsEveryVenueField` | app.py:626-636 | for any submitted form the edited venue keeps its key and holds every submitted field, the genres as their comma-joined string |
| `Directory.EditSetsEveryArtistField` | app.py:540-549 | for any submitted form the edited artist keeps its key and holds every submitted field, the genres as their comma-joined string |
| `Directory.EditThenReopenVenue` | app.py:626-636 | after an edit the venue holds every submitted field: reopening its form shows exactly the submitted form (comma-free genres other than `[""]`) |
| `Directory.EditThenReopenArtist` | app.py:540-549 | after an edit the artist holds every submitted field: reopening its form shows exactly the submitted form (comma-free genres other than `[""]`) |
| `Directory.EditedVenueShowsSubmittedGenres` | app.py:631 | after an edit the venue reads back the submitted comma-free genres |
| `Directory.EditedArtistShowsSubmittedGenres` | app.py:544 | after an edit the artist reads back the submitted comma-free genres |
| `Directory.RemoveVenue` | app.py:339 | an unknown id leaves the table alone; otherwise one row fewer, and with unique keys exactly the venues with another key remain |
| `Directory.EditedVenues` | app.py:616-636 | same length and keys; only the venue with that key changes, to the form's values |
| `Directory.EditedArtists` | app.py:530-549 | same length and keys; only the artist with that key changes, to the form's values |
| `Directory.VenueIndexByIds` | app.py:616 | lookup by key depends only on the keys, so edits do not move records |
| `Directory.ArtistIndexByIds` | app.py:530 | lookup by key depends only on the keys |
| `Directory.DeleteKeepsIntegrity` | app.py:336-339 | deleting a venue with its shows leaves a well-formed store |
| `Directory.RemoveVenueKeepsUniqueIds` | app.py:339 | removing a venue keeps primary keys unique |
| `Directory.EditVenueKeepsIntegrity` | app.py:626-637 | editing a venue leaves a well-formed store |
| `Directory.EditArtistKeepsIntegrity` | app.py:540-550 | editing an artist leaves a well-formed store |
| `Directory.DeleteKeepsOtherVenuesShows` | app.py:336 | every other venue's shows are kept, in the same order |
| `Directory.DeleteLeavesNoShowAtVenue` | app.py:336 | no show of the deleted venue is left |
| `Directory.DeleteSplitsShows` | app.py:336 | the shows kept and the shows removed add up to the table, and those kept keep their order |
| `Directory.Store.constructor` | app.py:36-86 | a store starts from well-formed tables |
| `Directory.Store.DeleteVenue` | app.py:324-340 | an unknown id changes nothing; otherwise the venue's shows and then the venue are removed, artists untouched, the store stays well formed |
| `Directory.Store.EditVenue` | app.py:613-637 | an unknown id changes nothing; otherwise only that venue's editable fields change, and the store stays well formed |
| `Directory.Store.EditArtist` | app.py:527-550 | an unknown id changes nothing; otherwise only that artist's editable fields change, and the store stays well formed |
| `SampleData.SampleIsWellFormed` | add_sample_data.py:11-125 | the fixture is a well-formed store |
| `SampleData.SampleHasTwoAreas` | add_sample_data.py:11-47 | the fixture's `/venues` page has two groups, in any walk order |
| `SampleData.SampleSanFranciscoArea` | add_sample_data.py:11-47 | the San Francisco group lists The Musical Hop and Park Square, the latter with three upcoming shows |
| `SampleData.SampleGenres` | add_sample_data.py:19 | The Musical Hop's genre string reads back as its five genres |
| `SampleData.SampleSearchFindsSax` | add_sample_data.py:76-83 | searching for "sax" finds The Wild Sax Band |
| `SampleData.SampleWildSaxBandAllUpcoming` | add_sample_data.py:104-122 | The Wild Sax Band's page has no past show and three upcoming ones |

## Left out

- Flask routing, templates, `flash`, redirects and the error handlers: each
  handler is modelled by what it computes or changes, not by the page it
  renders or the message it flashes.
- The SQLAlchemy session (`add`, `commit`, `rollback`, `close`): each change
  is one atomic update of the store. The `except` branches that roll back
  on a database error are not modelled, since the model's updates cannot
  fail.
- `datetime.now()` is the parameter `now`. `search_artists` and the
  `/venues` page read the clock once per artist or per show; the model reads
  it once per request.
- The `isoformat() + "Z"` start-time strings and `format_datetime`: a row's
  start time stays an integer.
- SQL `ilike` wildcards: `%` and `_` inside the search term are matched
  literally. Case folding covers ASCII letters only, not full Unicode.
- The walk order of the `locations` set: the grouping is proved for every
  order, and no particular group order is stated.
- The stub handlers `search_venues`, `shows` and `create_show_submission`,
  whose bodies are fixed data or empty.
- `create_venue_submission`, `create_artist_submission` and the `artists`
  listing: they insert or list rows with no logic beyond the genre encoding,
  which is modelled.
- `VenueForm` and `ArtistForm` validation. The form definitions in `forms.py`
  are not part of this model. The form is a record of its submitted values.
- The non-list branch of the genre encoding (`else form.genres.data`): forms
  submit genres as a list.
- NULL and "" are one value for every text column (the fixture leaves the
  absent fields as ""). A NULL `genres` decodes to `[]` like "", but
  resubmitting an unchanged edit form writes `','.join([]) == ''` over a
  NULL: the resubmission lemmas state the record unchanged and do not see
  this NULL-to-"" rewrite.
- Search: in SQL `NULL ILIKE '%term%'` is NULL, so the search never returns
  an artist whose name is NULL; the model reads that name as "" and returns
  the artist for the empty term. `EmptyTermMatchesAll`'s "every artist"
  means every artist with a name in the source.
- Queries without `ORDER BY` (the `venue.shows` and `artist.shows`
  relationships, `filter_by` and the `ilike` search) are taken in table
  order; the database may return them in another order.
- Records are values in sequences, not shared ORM objects: two handlers
  holding the same row is not modelled.
- Directory.ApplyVenueForm: its own contract only states that the primary
  key is kept; that every editable field takes the submitted value, for any
  genre list, is stated by `EditSetsEveryVenueField`. `EditThenReopenVenue`
  adds the round trip back to the form, for comma-free genre lists other
  than `[""]`.
- Directory.ApplyArtistForm: likewise, the fields are stated by
  `EditSetsEveryArtistField` for any genre list, and by
  `EditThenReopenArtist` for comma-free genre lists other than `[""]`.
