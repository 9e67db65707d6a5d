/** The uploader's run as functions of its configuration and of what the photo
    service answers. Each remote call's reply is given in a Service value; the
    requests the run issues are recorded as Actions. */
module UploadModel {
  import opened Paths
  import opened Records

  /** What the command line supplies: the directory to upload, the album name
      and the collection name (either name may be empty). */
  datatype Config = Config(dir: string, album: string, collection: string)

  /** The service's answers. Calls made once have one reply; the calls made
      for a directory entry are answered per entry position. */
  datatype Service = Service(
    setList: Reply<seq<Photoset>>,        // photosets.getList
    setPhotos: string -> Reply<Photoset>, // photosets.getPhotos, by album id
    entries: Reply<seq<string>>,          // the directory listing, in order
    upload: nat -> Reply<string>,         // upload of entry i: the new photo id
    created: nat -> Reply<Photoset>,      // photosets.create after entry i
    added: nat -> Reply<()>,              // photosets.addPhoto after entry i
    tree: Reply<seq<Collection>>,         // collections.getTree
    createdCollection: Reply<Collection>, // collections.create
    addSet: Reply<()>)                    // collections.addSet

  /** A request issued to the service, or a file skipped without one. */
  datatype Action =
    | GetSetList
    | GetSetPhotos(setId: string)
    | Skip(name: string)
    | Upload(name: string, path: string)
    | CreateSet(title: string, primary: string)
    | AddPhoto(setId: string, photoId: string)
    | GetTree
    | CreateCollection(title: string)
    | AddSet(collectionId: string, setId: string)

  /** The state after album resolution: requests so far, whether the run goes
      on, the album id (empty when none) and the photos used for skipping. */
  datatype Resolution = Resolution(actions: seq<Action>, outcome: Outcome, setId: string, photos: seq<Photo>)

  /** The state of the upload loop: the album id, the requests it issued, and
      whether the run goes on. */
  datatype Progress = Progress(setId: string, actions: seq<Action>, outcome: Outcome)

  /** Requests issued by a step and how the step ends. */
  datatype Phase = Phase(actions: seq<Action>, outcome: Outcome)

  /** The error text by which the upload reports a file that is not an image. */
  function NotImageMessage(path: string): string {
    path + " is not an image."
  }

  /** The error text by which addSet reports an album already in the collection. */
  const ALREADY_IN_COLLECTION: string := "4: Set already in collection"

  /** The title of a newly created album. */
  function AlbumTitle(cfg: Config): string {
    if cfg.album != "" then cfg.album else Base(cfg.dir)
  }

  /** Album resolution: with an album name, the first album of that exact
      title gives the album id and the photos to skip. */
  function Resolve(cfg: Config, svc: Service): Resolution {
    if cfg.album == "" then Resolution([], Done, "", [])
    else
      match svc.setList
      case Err(m) => Resolution([GetSetList], Aborted(m), "", [])
      case Ok(sets) =>
        match FirstTitled(Titles(sets, SetTitle), cfg.album)
        case None => Resolution([GetSetList], Done, "", [])
        case Some(k) =>
          var id := sets[k].id;
          match svc.setPhotos(id)
          case Err(m) => Resolution([GetSetList, GetSetPhotos(id)], Aborted(m), id, [])
          case Ok(s) => Resolution([GetSetList, GetSetPhotos(id)], Done, id, s.photos)
  }

  /** The file is skipped: an album is known and one of the photos loaded for
      it carries the file's title. */
  predicate Skipped(photos: seq<Photo>, setId: string, name: string) {
    setId != "" && Listed(photos, TitleOf(name))
  }

  /** What the turn of the upload loop for entry `i` (named `name`) does while
      the album id is `setId`: its requests, whether the run goes on, and the
      album id afterwards. */
  datatype Turn = Turn(actions: seq<Action>, outcome: Outcome, setId: string)

  function TurnOf(cfg: Config, svc: Service, photos: seq<Photo>, setId: string, i: nat, name: string): Turn {
    if Skipped(photos, setId, name) then Turn([Skip(name)], Done, setId)
    else
      var path := Join(cfg.dir, name);
      match svc.upload(i)
      case Err(m) =>
        if m == NotImageMessage(path) then Turn([Upload(name, path)], Done, setId)
        else Turn([Upload(name, path)], CheckErr(Some(m)), setId)
      case Ok(photoId) =>
        if setId == "" then
          var acts := [Upload(name, path), CreateSet(AlbumTitle(cfg), photoId)];
          match svc.created(i)
          case Err(m) => Turn(acts, Aborted(m), setId)
          case Ok(s) => Turn(acts, Done, s.id)
        else
          var acts := [Upload(name, path), AddPhoto(setId, photoId)];
          match svc.added(i)
          case Err(m) => Turn(acts, Aborted(m), setId)
          case Ok(_) => Turn(acts, Done, setId)
  }

  /** The loop state after the turn for entry `i`; nothing happens once the
      run is aborted. */
  function StepFile(cfg: Config, svc: Service, photos: seq<Photo>, p: Progress, i: nat, name: string): Progress {
    if p.outcome.Aborted? then p
    else
      var t := TurnOf(cfg, svc, photos, p.setId, i, name);
      Progress(t.setId, p.actions + t.actions, t.outcome)
  }

  /** The upload loop after its first `n` entries, starting from album id
      `setId0` and an empty request log. */
  function UploadPrefix(cfg: Config, svc: Service, files: seq<string>, photos: seq<Photo>, setId0: string, n: nat): Progress
    requires n <= |files|
  {
    if n == 0 then Progress(setId0, [], Done)
    else StepFile(cfg, svc, photos, UploadPrefix(cfg, svc, files, photos, setId0, n - 1), n - 1, files[n - 1])
  }

  /** How the run ends after addSet: normally when it succeeded or reported
      exactly that the album is already in the collection. */
  function AddSetOutcome(reply: Reply<()>): (o: Outcome)
    ensures o == Done <==> reply.Ok? || reply.message == ALREADY_IN_COLLECTION
    ensures o.Aborted? ==> o.message == reply.message
  {
    if reply.Err? && reply.message == ALREADY_IN_COLLECTION then Done
    else CheckErr(reply.Error())
  }

  /** Attaching album `setId` to the named collection, found by its first
      exact title or created. */
  function Attach(cfg: Config, svc: Service, setId: string): Phase {
    if setId == "" || cfg.collection == "" then Phase([], Done)
    else
      match svc.tree
      case Err(m) => Phase([GetTree], Aborted(m))
      case Ok(cs) =>
        var found := match FirstTitled(Titles(cs, CollectionTitle), cfg.collection)
                     case Some(k) => cs[k].id
                     case None => "";
        if found != "" then Phase([GetTree, AddSet(found, setId)], AddSetOutcome(svc.addSet))
        else
          match svc.createdCollection
          case Err(m) => Phase([GetTree, CreateCollection(cfg.collection)], Aborted(m))
          case Ok(c) =>
            Phase([GetTree, CreateCollection(cfg.collection), AddSet(c.id, setId)], AddSetOutcome(svc.addSet))
  }

  /** The whole run: resolution, listing, the upload loop, the collection step. */
  function RunOf(cfg: Config, svc: Service): Phase {
    var res := Resolve(cfg, svc);
    if res.outcome.Aborted? then Phase(res.actions, res.outcome)
    else
      match svc.entries
      case Err(m) => Phase(res.actions, Aborted(m))
      case Ok(files) =>
        var up := UploadPrefix(cfg, svc, files, res.photos, res.setId, |files|);
        if up.outcome.Aborted? then Phase(res.actions + up.actions, up.outcome)
        else
          var at := Attach(cfg, svc, up.setId);
          Phase(res.actions + up.actions + at.actions, at.outcome)
  }
}
