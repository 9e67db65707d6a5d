/** The uploader's main routine, step by step as it runs: album resolution,
    the loop over the directory entries, and the collection step. Each step
    is proved to do what the matching function of UploadModel describes. */
module Uploadr {
  import opened Paths
  import opened Records
  import opened UploadModel
  import opened UploadProperties

  /** Album resolution: with an album name, scan the albums for the first one
      of exactly that title, take its id and load its photos. */
  method ResolveAlbum(cfg: Config, svc: Service)
      returns (actions: seq<Action>, outcome: Outcome, setId: string, photos: seq<Photo>)
    ensures Resolution(actions, outcome, setId, photos) == Resolve(cfg, svc)
  {
    actions, outcome, setId, photos := [], Done, "", [];
    if cfg.album != "" {
      actions := [GetSetList];
      outcome := CheckErr(svc.setList.Error());
      if outcome.Aborted? {
        return;
      }
      var sets := svc.setList.value;
      for k := 0 to |sets|
        invariant forall j :: 0 <= j < k ==> sets[j].title != cfg.album
        invariant actions == [GetSetList] && outcome == Done && setId == "" && photos == []
      {
        if sets[k].title != cfg.album {
          continue;
        }
        assert FirstTitled(Titles(sets, SetTitle), cfg.album) == Some(k);
        setId := sets[k].id;
        actions := actions + [GetSetPhotos(setId)];
        var reply := svc.setPhotos(setId);
        outcome := CheckErr(reply.Error());
        if outcome.Aborted? {
          return;
        }
        photos := reply.value.photos;
        break;
      }
    }
  }

  /** Whether some loaded photo carries exactly the title `base`; the scan
      goes through the whole list. */
  method AlreadyUploaded(photos: seq<Photo>, base: string) returns (uploaded: bool)
    ensures uploaded <==> Listed(photos, base)
  {
    uploaded := false;
    for k := 0 to |photos|
      invariant uploaded <==> exists j :: 0 <= j < k && photos[j].title == base
    {
      if base == photos[k].title {
        uploaded := true;
      }
    }
  }

  /** The turn of the loop for entry `i`, named `name`, while the album id is
      `setId`. An entry whose title is among the loaded photos of a known
      album is skipped; any other is uploaded, and the new photo then creates
      the album or is added to it. An upload reported as not an image is
      passed over; any other failed request ends the run. */
  method HandleFile(cfg: Config, svc: Service, photos: seq<Photo>, setId: string, i: nat, name: string)
      returns (actions: seq<Action>, outcome: Outcome, newSetId: string)
    ensures Turn(actions, outcome, newSetId) == TurnOf(cfg, svc, photos, setId, i, name)
  {
    newSetId := setId;
    var ext := Ext(name);
    var base := name[..|name| - |ext|];
    if setId != "" {
      var uploaded := AlreadyUploaded(photos, base);
      if uploaded {
        return [Skip(name)], Done, newSetId;
      }
    }
    var path := Join(cfg.dir, name);
    actions := [Upload(name, path)];
    var reply := svc.upload(i);
    if reply.Err? && reply.message == NotImageMessage(path) {
      return actions, Done, newSetId;
    }
    outcome := CheckErr(reply.Error());
    if outcome.Aborted? {
      return;
    }
    var photoId := reply.value;
    if setId == "" {
      actions := actions + [CreateSet(AlbumTitle(cfg), photoId)];
      var created := svc.created(i);
      outcome := CheckErr(created.Error());
      if outcome.Aborted? {
        return;
      }
      newSetId := created.value.id;
    } else {
      actions := actions + [AddPhoto(setId, photoId)];
      outcome := CheckErr(svc.added(i).Error());
    }
  }

  /** The loop over the directory entries, in order, until a request fails. */
  method UploadFiles(cfg: Config, svc: Service, files: seq<string>, photos: seq<Photo>, setId0: string)
      returns (setId: string, actions: seq<Action>, outcome: Outcome)
    ensures Progress(setId, actions, outcome) == UploadPrefix(cfg, svc, files, photos, setId0, |files|)
  {
    setId, actions, outcome := setId0, [], Done;
    for i := 0 to |files|
      invariant UploadPrefix(cfg, svc, files, photos, setId0, i) == Progress(setId, actions, outcome) && outcome == Done
    {
      UnfoldPrefix(cfg, svc, files, photos, setId0, i + 1);
      var turn;
      turn, outcome, setId := HandleFile(cfg, svc, photos, setId, i, files[i]);
      actions := actions + turn;
      if outcome.Aborted? {
        AbortSticky(cfg, svc, files, photos, setId0, i + 1, |files|);
        return;
      }
    }
  }

  /** The collection step: with an album id and a collection name, find the
      first collection of exactly that title (or create it) and add the album
      to it; an addSet error saying the album is already there is harmless. */
  method AttachToCollection(cfg: Config, svc: Service, setId: string) returns (actions: seq<Action>, outcome: Outcome)
    ensures Phase(actions, outcome) == Attach(cfg, svc, setId)
  {
    actions, outcome := [], Done;
    if setId != "" && cfg.collection != "" {
      actions := [GetTree];
      outcome := CheckErr(svc.tree.Error());
      if outcome.Aborted? {
        return;
      }
      var cs := svc.tree.value;
      var collectionId := "";
      ghost var found: Option<nat> := None;
      for k := 0 to |cs|
        invariant forall j :: 0 <= j < k ==> cs[j].title != cfg.collection
        invariant collectionId == "" && found == None
      {
        if cs[k].title == cfg.collection {
          collectionId := cs[k].id;
          found := Some(k);
          break;
        }
      }
      assert found == FirstTitled(Titles(cs, CollectionTitle), cfg.collection);
      if collectionId == "" {
        actions := actions + [CreateCollection(cfg.collection)];
        outcome := CheckErr(svc.createdCollection.Error());
        if outcome.Aborted? {
          return;
        }
        collectionId := svc.createdCollection.value.id;
      }
      actions := actions + [AddSet(collectionId, setId)];
      var reply := svc.addSet;
      if reply.Err? && reply.message == ALREADY_IN_COLLECTION {
        outcome := Done;
      } else {
        outcome := CheckErr(reply.Error());
      }
    }
  }

  /** The whole run: resolve the album, list the directory, upload its
      entries, then attach the album to the collection. */
  method Run(cfg: Config, svc: Service) returns (actions: seq<Action>, outcome: Outcome)
    ensures Phase(actions, outcome) == RunOf(cfg, svc)
    ensures CreatedIdsNonEmpty(svc) ==> CountCreates(actions) <= 1
    ensures Resolve(cfg, svc).setId != "" && CreatedIdsNonEmpty(svc) ==> CountCreates(actions) == 0
    ensures (CreatedIdsNonEmpty(svc) && Resolve(cfg, svc).outcome == Done && Resolve(cfg, svc).setId == "" &&
             svc.entries.Ok? &&
             UploadPrefix(cfg, svc, svc.entries.value, Resolve(cfg, svc).photos, "", |svc.entries.value|).outcome == Done &&
             exists i :: 0 <= i < |svc.entries.value| && svc.upload(i).Ok?)
            ==> CountCreates(actions) == 1
  {
    if CreatedIdsNonEmpty(svc) {
      RunCreatesAtMostOnce(cfg, svc);
    }
    var setId, photos;
    actions, outcome, setId, photos := ResolveAlbum(cfg, svc);
    if outcome.Aborted? {
      return;
    }
    outcome := CheckErr(svc.entries.Error());
    if outcome.Aborted? {
      return;
    }
    var files := svc.entries.value;
    var uploads, attached;
    setId, uploads, outcome := UploadFiles(cfg, svc, files, photos, setId);
    actions := actions + uploads;
    if outcome.Aborted? {
      return;
    }
    attached, outcome := AttachToCollection(cfg, svc, setId);
    actions := actions + attached;
    if CreatedIdsNonEmpty(svc) && Resolve(cfg, svc).setId == "" &&
       exists i :: 0 <= i < |files| && svc.upload(i).Ok? {
      RunCreatesExactlyOnce(cfg, svc);
    }
  }
}
