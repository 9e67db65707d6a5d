# uploadr: a verified model of the upload decisions

`uploadr` uploads every entry of a local directory to a Flickr account, puts
the photos into an album ("photoset") and, optionally, puts the album into a
collection. The program's `main` makes a sequence of decisions between remote
calls:

- **Album resolution.** Given an album name, `main` takes the first album whose
  title matches exactly. It remembers that album's id and loads its photos.
- **The entry loop.** An entry whose title (file name without extension) is
  already among the loaded photos of a known album is skipped. Any other entry
  is uploaded. The first successful upload creates the album, named after the
  album argument or else after the directory's last element. Later uploads are
  added to that album. An upload reported as "not an image" is passed over;
  any other failure ends the run.
- **The collection step.** Given a collection name and an album id, `main`
  takes the id of the first collection whose title matches exactly. When
  there is no such collection, or when that first match has an empty id, it
  creates the collection. It then adds the album to it. An addSet error
  saying the album is already in the collection is harmless.

The model treats the photo service as an oracle. A `Service` value holds the
reply to every call the run can make. Calls made once per run have one reply.
Calls made per directory entry (upload, photosets.create,
photosets.addPhoto) have one reply per entry position. A reply is the parsed
record (`Ok`) or the error text (`Err`). The run's observable behaviour is the
list of requests it issues (`Action`) and how it ends (`Done`, or `Aborted`
with the error text where the program panics).

Files:

- `paths.dfy` (module `Paths`): `filepath.Ext`, the title derived from it, and
  `filepath.Base` of the directory, with their characterisations.
- `records.dfy` (module `Records`): the records read from replies, the `Reply`
  type, `checkErr` as `CheckErr`, and the first-exact-title search.
- `model.dfy` (module `UploadModel`): the run as functions. `Resolve` covers
  album resolution. `TurnOf` is one turn of the entry loop. `UploadPrefix` is
  the loop after `n` entries. `Attach` is the collection step and `RunOf` the
  whole run.
- `properties.dfy` (module `UploadProperties`): what the run promises, proved
  about those functions.
- `uploadr.dfy` (module `Uploadr`): `main` written step by step, with its
  loops, `continue` and `break`. Each method is proved equal to the function
  that specifies it.
- `scenarios.dfy` (module `UploadScenarios`): small worked runs.

## Model

| member | source | states |
|---|---|---|
| Paths.ExtIsExtension | uploadr/uploadr.go:76 | the extension is the suffix from the last '.' of the last path element, or "" when that element has no '.' |
| Paths.ExtUnique | uploadr/uploadr.go:76 | exactly one suffix has those properties, so they define the extension |
| Paths.ExtWithoutDot | uploadr/uploadr.go:76 | a name with no '.' has the empty extension |
| Paths.TitleSplit | uploadr/uploadr.go:75-77 | title followed by extension gives the file name back; with no extension the title is the whole name and its last element has no '.' |
| Paths.BaseShape | uploadr/uploadr.go:108 | the directory's base name is never empty, is "." for the empty path, and contains '/' only when it is "/" |
| Records.Reply.Error | uploadr/uploadr.go:52-54 | a reply carries a nil error exactly when it is parsed; otherwise the error is the reply's text |
| Records.CheckErr | uploadr/uploadr.go:181-188 | the run goes on exactly when the error is nil; otherwise it ends with that error |
| Records.FirstTitled | uploadr/uploadr.go:55-69 | the position found holds the title and no earlier position does; none is found only when no position holds it |
| UploadModel.AddSetOutcome | uploadr/uploadr.go:171-177 | addSet ends the run normally exactly when it succeeds or fails with the text "4: Set already in collection"; otherwise it aborts with the reply's error |
| UploadProperties.AlbumTitleShape | uploadr/uploadr.go:106-109 | a new album is named by the album argument when given, else by the directory's base name, and the name is never empty |
| UploadProperties.ResolveFirstMatch | uploadr/uploadr.go:46-70 | with an album name, the first album of exactly that title gives the album id, and only that album's photos are loaded; a failed getPhotos aborts |
| UploadProperties.ResolveNoMatch | uploadr/uploadr.go:42-46 | with no album name, or a name no album carries, the album id and the loaded photos stay empty and the run goes on |
| UploadProperties.TurnShape | uploadr/uploadr.go:80-133 | a turn skips exactly when an album is known and its photos hold the entry's title; otherwise it uploads the joined path, and only a successful upload adds one album request; the album id changes only from empty, by a successful creation |
| UploadProperties.TurnUploadError | uploadr/uploadr.go:96-101 | a failed upload goes on exactly when its error text is the path followed by " is not an image."; any other error aborts with that text |
| UploadProperties.TurnCreatesAlbum | uploadr/uploadr.go:104-122 | a successful upload with no album id issues one create, titled by AlbumTitle, with the new photo as primary; the album id becomes the created album's id |
| UploadProperties.TurnAddsPhoto | uploadr/uploadr.go:123-133 | a successful upload into a known album, for an entry not already there, adds the new photo to that album and keeps the album id |
| UploadProperties.TurnCreates | uploadr/uploadr.go:104-133 | a turn creates an album exactly when an upload succeeds while the album id is empty |
| UploadProperties.AbortSticky | uploadr/uploadr.go:101 | once a request in the loop fails, no later entry issues a request and the state stays as it was |
| UploadProperties.LogExtends | uploadr/uploadr.go:74-134 | the request log of a shorter prefix of the entries is a prefix of the longer one's log |
| UploadProperties.AlbumIdStable | uploadr/uploadr.go:104-121 | once the album id is non-empty it never changes again, so it never returns to empty |
| UploadProperties.CreatesAtLeastOnce | uploadr/uploadr.go:104-122 | when no album was known and the loop completes after a successful upload, at least one create was issued |
| UploadProperties.CreateAtMostOnce | uploadr/uploadr.go:104-133 | the loop creates at most one album, none when resolution found one, provided created albums get a non-empty id |
| UploadProperties.AlbumOrigin | uploadr/uploadr.go:121 | the loop ends with an album id different from the one it started with only if it started empty and issued a create |
| UploadProperties.AddsTargetAlbum | uploadr/uploadr.go:123-129 | every addPhoto names the album id the loop ends with, which is non-empty |
| UploadProperties.AddFollowsCreate | uploadr/uploadr.go:104-133 | when resolution found no album, every addPhoto comes after a create |
| UploadProperties.AlbumRequestsFollowUploads | uploadr/uploadr.go:94-133 | every create or addPhoto directly follows the upload of some entry and names the photo id that upload returned; a create carries AlbumTitle |
| UploadProperties.UploadFollowedByAlbumRequest | uploadr/uploadr.go:94-133 | conversely, every entry the loop reaches, does not skip and uploads with success puts its upload and, right after it, a create or addPhoto naming the new photo id into the log |
| UploadProperties.SkipsOnlyPreloaded | uploadr/uploadr.go:80-91 | an entry is skipped only when its title is among the photos loaded at resolution; uploads made by the loop never cause a skip |
| UploadProperties.TurnNames | uploadr/uploadr.go:75-133 | each turn handles exactly its own entry, once, by a skip or an upload |
| UploadProperties.EntriesInOrder | uploadr/uploadr.go:74-134 | entries are handled once each, in the order of the given listing, and all of them unless the loop aborts |
| UploadProperties.RerunSkipsAll | uploadr/uploadr.go:80-91 | into a known album whose photos hold every entry's title, the loop skips every entry and issues nothing else |
| UploadProperties.AttachRunsOnlyWithBoth | uploadr/uploadr.go:136 | the collection step issues a request exactly when the album id and the collection name are both non-empty |
| UploadProperties.AttachUsesFirstMatch | uploadr/uploadr.go:145-152 | the first collection of exactly the requested title receives the album, and no collection is created when it has an id |
| UploadProperties.AttachCreatesWhenAbsent | uploadr/uploadr.go:145-164 | when no collection has the title, or the first one that has it has an empty id, the collection is created; a failed create aborts, otherwise the album is added to the new collection |
| UploadProperties.AttachCreatesCollectionIff | uploadr/uploadr.go:136-164 | a collection is created exactly when the step runs, the tree is read, and no collection has the title or the first one that has it has an empty id |
| UploadProperties.ResolveCreatesNothing | uploadr/uploadr.go:46-70 | album resolution never creates an album |
| UploadProperties.AttachCreatesNothing | uploadr/uploadr.go:136-178 | the collection step never creates an album |
| UploadProperties.RunCreatesAtMostOnce | uploadr/uploadr.go:42-178 | a whole run creates at most one album, none when resolution found one, provided created albums get a non-empty id |
| UploadProperties.RunCreatesExactlyOnce | uploadr/uploadr.go:42-178 | when resolution found no album and the upload loop completes after a successful upload, the run creates exactly one album, provided created albums get a non-empty id |
| UploadProperties.UploadFailureEndsRun | uploadr/uploadr.go:96-101 | an upload failing with any other error than "not an image" is the run's last request and the run aborts with its error |
| UploadProperties.RerunUploadsNothing | uploadr/uploadr.go:46-91 | a re-run into an album that already holds every entry's title issues no upload, no create and no addPhoto |
| Uploadr.ResolveAlbum | uploadr/uploadr.go:42-70 | the scan with `continue` and `break` yields the requests, outcome, album id and photos of Resolve |
| Uploadr.AlreadyUploaded | uploadr/uploadr.go:81-86 | the flag set by the full scan is true exactly when some loaded photo has the title |
| Uploadr.HandleFile | uploadr/uploadr.go:75-133 | one pass of the loop body does what TurnOf describes |
| Uploadr.UploadFiles | uploadr/uploadr.go:74-134 | the loop over the entries yields the album id, requests and outcome of UploadPrefix over all entries |
| Uploadr.AttachToCollection | uploadr/uploadr.go:136-178 | the collection step, with its search loop and break, yields the requests and outcome of Attach |
| Uploadr.Run | uploadr/uploadr.go:42-178 | the run yields the requests and outcome of RunOf; when created albums get non-empty ids it creates at most one album, none if resolution found one, and exactly one if it found none, the upload loop completes and some upload succeeds, whatever the collection step then does |
| UploadScenarios.TitleExamples | uploadr/uploadr.go:75-77 | "a.tar.gz" has title "a.tar", ".jpg" has the empty title, "IMG_01" is its own title |
| UploadScenarios.BaseExamples | uploadr/uploadr.go:108 | the base of "" is ".", of "///" is "/", of "/home/me/holiday/" is "holiday" |
| UploadScenarios.NewAlbumFromDirectory | uploadr/uploadr.go:74-134 | two new photos: the first creates the album named after the directory, the second is added to it |
| UploadScenarios.RerunSkipsKnownTitles | uploadr/uploadr.go:46-91 | entries whose titles the found album already holds are skipped, whatever their extension |
| UploadScenarios.SameTitleUploadedTwice | uploadr/uploadr.go:80-91 | "a.jpg" and "a.png" are both uploaded into a new album, since the skip list is not extended |
| UploadScenarios.NotAnImagePassedOver | uploadr/uploadr.go:96-100 | a "not an image" failure is passed over and the next entry creates the album |
| UploadScenarios.OtherUploadErrorAborts | uploadr/uploadr.go:96-101 | an upload error with any other text ends the run at that entry |
| UploadScenarios.AlreadyInCollection | uploadr/uploadr.go:171-177 | addSet failing with "4: Set already in collection" ends the run normally; any other error aborts it |

## Left out

- Command-line parsing (`flickr.NewRequestFromCmd`) and its error check: the model starts from a given `Config` of directory, album name and collection name.
- The flickr client: request building, authentication, HTTP methods, and the retries with one-second delays of `ExecuteWithRetry` and `UploadWithRetry`. Each call is represented by its final reply in `Service`.
- XML unmarshalling: replies are given as parsed records. A reply that does not parse is an `Err` of the same call, so its error aborts the run at the same point.
- `ioutil.ReadDir`: the directory listing is given as a sequence of entry names, or an error. `ReadDir` returns the entries sorted by name; the model accepts a listing in any order, and "in order" in the properties means the order of the given listing. Entries that are sub-directories are ordinary names here.
- Names, titles and error texts are Dafny strings (sequences of characters), where Go compares byte strings. Every decision is an equality test or a scan for '.' and '/', so no decision depends on the difference.
- `fmt.Println` output, including what `checkErr` prints before panicking: its loop ranges over the indices of its message arguments, so it prints 0, 1, … rather than the messages. A panic is the `Aborted` outcome carrying the error text.
- Paths.Join: joins with one '/' but does not apply the cleaning `filepath.Join` does, such as collapsing "//" or removing "./". The uploaded path and the "not an image" text are compared on this simpler path.
- Paths.Ext and Paths.Base: only '/' is a separator and there are no volume names, as on Unix.
- UploadProperties.CreateAtMostOnce and UploadProperties.RunCreatesAtMostOnce: these need the service to give created albums a non-empty id. The program itself re-creates the album on the next upload when a create reply has no id, and the model does the same.
- Uploadr.HandleFile: the loop body is its own method that returns where the program writes `continue`. The loop in UploadFiles appends its requests and stops on the first abort.
