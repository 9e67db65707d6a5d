/** What the run promises, proved about the functions of UploadModel. */
module UploadProperties {
  import opened Paths
  import opened Records
  import opened UploadModel

  /** Number of album creations among the requests. */
  function CountCreates(acts: seq<Action>): (c: nat)
    ensures c <= |acts|
  {
    if acts == [] then 0
    else (if acts[0].CreateSet? then 1 else 0) + CountCreates(acts[1..])
  }

  /** No creation is counted exactly when none of the requests is one. */
  lemma {:induction false} CountCreatesZero(acts: seq<Action>)
    ensures CountCreates(acts) == 0 <==> forall k :: 0 <= k < |acts| ==> !acts[k].CreateSet?
  {
    if acts != [] {
      CountCreatesZero(acts[1..]);
      assert forall k :: 1 <= k < |acts| ==> acts[k] == acts[1..][k - 1];
    }
  }

  lemma {:induction false} CountCreatesAppend(a: seq<Action>, b: seq<Action>)
    ensures CountCreates(a + b) == CountCreates(a) + CountCreates(b)
  {
    if a != [] {
      assert (a + b)[1..] == a[1..] + b;
      CountCreatesAppend(a[1..], b);
    } else {
      assert a + b == b;
    }
  }

  /** The names of the entries the requests handle, one per Skip or Upload. */
  function Names(acts: seq<Action>): (ns: seq<string>)
    ensures |ns| <= |acts|
  {
    if acts == [] then []
    else (if acts[0].Skip? || acts[0].Upload? then [acts[0].name] else []) + Names(acts[1..])
  }

  lemma {:induction false} NamesAppend(a: seq<Action>, b: seq<Action>)
    ensures Names(a + b) == Names(a) + Names(b)
  {
    if a != [] {
      assert (a + b)[1..] == a[1..] + b;
      NamesAppend(a[1..], b);
    } else {
      assert a + b == b;
    }
  }

  /** The photo an album request is about: the primary photo of a creation,
      the added photo of an addition. */
  function AlbumPhoto(a: Action): string
    requires a.CreateSet? || a.AddPhoto?
  {
    if a.CreateSet? then a.primary else a.photoId
  }

  /** A new album is named after the album argument, or else after the last
      element of the directory; either way the name is not empty. */
  lemma AlbumTitleShape(cfg: Config)
    ensures AlbumTitle(cfg) != ""
    ensures cfg.album != "" ==> AlbumTitle(cfg) == cfg.album
    ensures cfg.album == "" ==> AlbumTitle(cfg) == Base(cfg.dir)
  {
    BaseShape(cfg.dir);
  }

  // ---------------------------------------------------------------------
  // One turn of the upload loop

  /** The shape of a turn: a skip alone, or an upload possibly followed by
      one album request; the album id changes only from empty, by a
      successful creation. */
  lemma TurnShape(cfg: Config, svc: Service, photos: seq<Photo>, setId: string, i: nat, name: string)
    ensures var t := TurnOf(cfg, svc, photos, setId, i, name);
      1 <= |t.actions| <= 2 &&
      (Skipped(photos, setId, name) <==> t.actions[0] == Skip(name)) &&
      (Skipped(photos, setId, name) ==> t == Turn([Skip(name)], Done, setId)) &&
      (!Skipped(photos, setId, name) ==> t.actions[0] == Upload(name, Join(cfg.dir, name))) &&
      (|t.actions| == 2 <==> !Skipped(photos, setId, name) && svc.upload(i).Ok?) &&
      (|t.actions| == 2 ==>
        t.actions[1] == if setId == "" then CreateSet(AlbumTitle(cfg), svc.upload(i).value)
                        else AddPhoto(setId, svc.upload(i).value)) &&
      (t.setId != setId ==>
        setId == "" && |t.actions| == 2 && svc.created(i).Ok? && t.setId == svc.created(i).value.id && t.outcome == Done)
  {
  }

  /** A file not skipped is uploaded. An upload error that says exactly that
      the file is not an image skips the file and the run goes on; any other
      upload error aborts with that error. */
  lemma TurnUploadError(cfg: Config, svc: Service, photos: seq<Photo>, setId: string, i: nat, name: string)
    requires !Skipped(photos, setId, name) && svc.upload(i).Err?
    ensures var t := TurnOf(cfg, svc, photos, setId, i, name);
      var path := Join(cfg.dir, name);
      t.actions == [Upload(name, path)] && t.setId == setId &&
      (t.outcome == Done <==> svc.upload(i).message == NotImageMessage(path)) &&
      (t.outcome.Aborted? ==> t.outcome.message == svc.upload(i).message)
  {
  }

  /** A successful upload without an album creates one, named by AlbumTitle,
      with the new photo as primary; the album id becomes the created id. */
  lemma TurnCreatesAlbum(cfg: Config, svc: Service, photos: seq<Photo>, i: nat, name: string)
    requires svc.upload(i).Ok?
    ensures var t := TurnOf(cfg, svc, photos, "", i, name);
      t.actions == [Upload(name, Join(cfg.dir, name)), CreateSet(AlbumTitle(cfg), svc.upload(i).value)] &&
      (svc.created(i).Ok? ==> t.outcome == Done && t.setId == svc.created(i).value.id) &&
      (svc.created(i).Err? ==> t.outcome == Aborted(svc.created(i).message))
  {
  }

  /** A successful upload into a known album adds the new photo to it and
      never creates an album. */
  lemma TurnAddsPhoto(cfg: Config, svc: Service, photos: seq<Photo>, setId: string, i: nat, name: string)
    requires setId != "" && !Listed(photos, TitleOf(name)) && svc.upload(i).Ok?
    ensures var t := TurnOf(cfg, svc, photos, setId, i, name);
      t.actions == [Upload(name, Join(cfg.dir, name)), AddPhoto(setId, svc.upload(i).value)] &&
      t.setId == setId &&
      (svc.added(i).Ok? ==> t.outcome == Done) &&
      (svc.added(i).Err? ==> t.outcome == Aborted(svc.added(i).message))
  {
  }

  /** A turn creates an album exactly when an upload succeeds while no album
      is known. */
  lemma TurnCreates(cfg: Config, svc: Service, photos: seq<Photo>, setId: string, i: nat, name: string)
    ensures CountCreates(TurnOf(cfg, svc, photos, setId, i, name).actions) ==
      if setId == "" && svc.upload(i).Ok? then 1 else 0
  {
    var t := TurnOf(cfg, svc, photos, setId, i, name);
    TurnShape(cfg, svc, photos, setId, i, name);
    if |t.actions| == 2 {
      assert t.actions[1..][1..] == [];
    }
  }

  // ---------------------------------------------------------------------
  // The upload loop

  /** The loop after n entries is one more turn after n - 1 entries. */
  lemma UnfoldPrefix(cfg: Config, svc: Service, files: seq<string>, photos: seq<Photo>, setId0: string, n: nat)
    requires 0 < n <= |files|
    ensures var p := UploadPrefix(cfg, svc, files, photos, setId0, n - 1);
      var t := TurnOf(cfg, svc, photos, p.setId, n - 1, files[n - 1]);
      UploadPrefix(cfg, svc, files, photos, setId0, n) ==
        if p.outcome.Aborted? then p else Progress(t.setId, p.actions + t.actions, t.outcome)
  {
  }

  /** Once a request fails, the loop issues nothing more and keeps its state. */
  lemma {:induction false} AbortSticky(cfg: Config, svc: Service, files: seq<string>, photos: seq<Photo>, setId0: string, m: nat, n: nat)
    requires m <= n <= |files|
    requires UploadPrefix(cfg, svc, files, photos, setId0, m).outcome.Aborted?
    ensures UploadPrefix(cfg, svc, files, photos, setId0, n) == UploadPrefix(cfg, svc, files, photos, setId0, m)
  {
    if m < n {
      AbortSticky(cfg, svc, files, photos, setId0, m, n - 1);
      UnfoldPrefix(cfg, svc, files, photos, setId0, n);
    }
  }

  /** The request log only grows. */
  lemma {:induction false} LogExtends(cfg: Config, svc: Service, files: seq<string>, photos: seq<Photo>, setId0: string, m: nat, n: nat)
    requires m <= n <= |files|
    ensures var a := UploadPrefix(cfg, svc, files, photos, setId0, m).actions;
      var b := UploadPrefix(cfg, svc, files, photos, setId0, n).actions;
      |a| <= |b| && a == b[..|a|]
  {
    if m < n {
      LogExtends(cfg, svc, files, photos, setId0, m, n - 1);
      UnfoldPrefix(cfg, svc, files, photos, setId0, n);
      var p := UploadPrefix(cfg, svc, files, photos, setId0, n - 1);
      var u := UploadPrefix(cfg, svc, files, photos, setId0, n);
      assert p.actions == u.actions[..|p.actions|];
    }
  }

  /** Once the album id is set it never changes again (in particular it never
      returns to empty). */
  lemma {:induction false} AlbumIdStable(cfg: Config, svc: Service, files: seq<string>, photos: seq<Photo>, setId0: string, m: nat, n: nat)
    requires m <= n <= |files|
    requires UploadPrefix(cfg, svc, files, photos, setId0, m).setId != ""
    ensures UploadPrefix(cfg, svc, files, photos, setId0, n).setId == UploadPrefix(cfg, svc, files, photos, setId0, m).setId
  {
    if m < n {
      AlbumIdStable(cfg, svc, files, photos, setId0, m, n - 1);
      UnfoldPrefix(cfg, svc, files, photos, setId0, n);
      var p := UploadPrefix(cfg, svc, files, photos, setId0, n - 1);
      TurnShape(cfg, svc, photos, p.setId, n - 1, files[n - 1]);
    }
  }

  /** The service gives every album it creates a non-empty id. */
  ghost predicate CreatedIdsNonEmpty(svc: Service) {
    forall i :: svc.created(i).Ok? ==> svc.created(i).value.id != ""
  }

  /** The creation count of a loop state started from album id `setId0`: at
      most one creation, none when an album was known from the start, and a
      known album once a creation has succeeded. */
  predicate CreatesBounded(p: Progress, setId0: string) {
    var c := CountCreates(p.actions);
    c <= 1 &&
    (setId0 != "" ==> c == 0 && p.setId == setId0) &&
    (c == 1 && p.outcome == Done ==> p.setId != "")
  }

  /** One turn keeps the creation count bounded. */
  lemma StepCreatesBounded(cfg: Config, svc: Service, photos: seq<Photo>, p: Progress, setId0: string, i: nat, name: string)
    requires CreatedIdsNonEmpty(svc) && CreatesBounded(p, setId0)
    ensures CreatesBounded(StepFile(cfg, svc, photos, p, i, name), setId0)
  {
    if p.outcome == Done {
      var t := TurnOf(cfg, svc, photos, p.setId, i, name);
      TurnCreates(cfg, svc, photos, p.setId, i, name);
      CountCreatesAppend(p.actions, t.actions);
      if p.setId == "" && svc.upload(i).Ok? {
        TurnCreatesAlbum(cfg, svc, photos, i, name);
      } else {
        TurnShape(cfg, svc, photos, p.setId, i, name);
      }
    }
  }

  /** With an album found at resolution no album is created; otherwise at
      most one is, provided the service gives created albums a non-empty id. */
  lemma {:induction false} CreateAtMostOnce(cfg: Config, svc: Service, files: seq<string>, photos: seq<Photo>, setId0: string, n: nat)
    requires n <= |files|
    requires CreatedIdsNonEmpty(svc)
    ensures CreatesBounded(UploadPrefix(cfg, svc, files, photos, setId0, n), setId0)
  {
    if n > 0 {
      CreateAtMostOnce(cfg, svc, files, photos, setId0, n - 1);
      var p := UploadPrefix(cfg, svc, files, photos, setId0, n - 1);
      StepCreatesBounded(cfg, svc, photos, p, setId0, n - 1, files[n - 1]);
    }
  }

  /** When no album was known, a loop that completes after an entry was
      uploaded successfully has created an album. */
  lemma {:induction false} CreatesAtLeastOnce(cfg: Config, svc: Service, files: seq<string>, photos: seq<Photo>, n: nat)
    requires n <= |files|
    requires UploadPrefix(cfg, svc, files, photos, "", n).outcome == Done
    requires exists i :: 0 <= i < n && svc.upload(i).Ok?
    ensures CountCreates(UploadPrefix(cfg, svc, files, photos, "", n).actions) >= 1
  {
    UnfoldPrefix(cfg, svc, files, photos, "", n);
    var p := UploadPrefix(cfg, svc, files, photos, "", n - 1);
    assert p.outcome == Done;
    var t := TurnOf(cfg, svc, photos, p.setId, n - 1, files[n - 1]);
    CountCreatesAppend(p.actions, t.actions);
    if exists i :: 0 <= i < n - 1 && svc.upload(i).Ok? {
      CreatesAtLeastOnce(cfg, svc, files, photos, n - 1);
    } else if p.setId == "" {
      TurnCreates(cfg, svc, photos, p.setId, n - 1, files[n - 1]);
    } else {
      AlbumOrigin(cfg, svc, files, photos, "", n - 1);
      CountCreatesZero(p.actions);
    }
  }

  /** Without an album id from resolution, the album id changes only by a
      creation. */
  lemma {:induction false} AlbumOrigin(cfg: Config, svc: Service, files: seq<string>, photos: seq<Photo>, setId0: string, n: nat)
    requires n <= |files|
    ensures var u := UploadPrefix(cfg, svc, files, photos, setId0, n);
      u.setId != setId0 ==> setId0 == "" && exists k :: 0 <= k < |u.actions| && u.actions[k].CreateSet?
  {
    if n > 0 {
      AlbumOrigin(cfg, svc, files, photos, setId0, n - 1);
      UnfoldPrefix(cfg, svc, files, photos, setId0, n);
      var p := UploadPrefix(cfg, svc, files, photos, setId0, n - 1);
      var u := UploadPrefix(cfg, svc, files, photos, setId0, n);
      if p.outcome == Done {
        TurnShape(cfg, svc, photos, p.setId, n - 1, files[n - 1]);
        if u.setId != setId0 && p.setId == setId0 {
          assert u.actions[|p.actions| + 1].CreateSet?;
        } else if u.setId != setId0 {
          var k :| 0 <= k < |p.actions| && p.actions[k].CreateSet?;
          assert u.actions[k] == p.actions[k];
        }
      }
    }
  }

  /** Every photo addition goes to the album id the loop ends with, which is
      not empty. */
  lemma {:induction false} AddsTargetAlbum(cfg: Config, svc: Service, files: seq<string>, photos: seq<Photo>, setId0: string, n: nat)
    requires n <= |files|
    ensures var u := UploadPrefix(cfg, svc, files, photos, setId0, n);
      forall k :: 0 <= k < |u.actions| && u.actions[k].AddPhoto? ==> u.actions[k].setId == u.setId != ""
  {
    if n > 0 {
      AddsTargetAlbum(cfg, svc, files, photos, setId0, n - 1);
      UnfoldPrefix(cfg, svc, files, photos, setId0, n);
      var p := UploadPrefix(cfg, svc, files, photos, setId0, n - 1);
      var u := UploadPrefix(cfg, svc, files, photos, setId0, n);
      if p.outcome == Done {
        TurnShape(cfg, svc, photos, p.setId, n - 1, files[n - 1]);
        forall k | 0 <= k < |u.actions| && u.actions[k].AddPhoto?
          ensures u.actions[k].setId == u.setId != ""
        {
          if k < |p.actions| {
            assert u.actions[k] == p.actions[k];
          }
        }
      }
    }
  }

  /** When no album was found at resolution, every photo addition comes after
      an album creation. */
  lemma {:induction false} AddFollowsCreate(cfg: Config, svc: Service, files: seq<string>, photos: seq<Photo>, n: nat)
    requires n <= |files|
    ensures var u := UploadPrefix(cfg, svc, files, photos, "", n);
      forall k :: 0 <= k < |u.actions| && u.actions[k].AddPhoto? ==>
        exists j :: 0 <= j < k && u.actions[j].CreateSet?
  {
    if n > 0 {
      AddFollowsCreate(cfg, svc, files, photos, n - 1);
      UnfoldPrefix(cfg, svc, files, photos, "", n);
      var p := UploadPrefix(cfg, svc, files, photos, "", n - 1);
      var u := UploadPrefix(cfg, svc, files, photos, "", n);
      if p.outcome == Done {
        TurnShape(cfg, svc, photos, p.setId, n - 1, files[n - 1]);
        forall k | 0 <= k < |u.actions| && u.actions[k].AddPhoto?
          ensures exists j :: 0 <= j < k && u.actions[j].CreateSet?
        {
          if k < |p.actions| {
            assert u.actions[k] == p.actions[k];
            var j :| 0 <= j < k && p.actions[j].CreateSet?;
            assert u.actions[j] == p.actions[j];
          } else {
            assert p.setId != "";
            AlbumOrigin(cfg, svc, files, photos, "", n - 1);
            var j :| 0 <= j < |p.actions| && p.actions[j].CreateSet?;
            assert u.actions[j] == p.actions[j];
          }
        }
      }
    }
  }

  /** Every album request directly follows the upload of some entry and
      names the photo id that upload returned; a creation carries the album
      title. */
  lemma {:induction false} AlbumRequestsFollowUploads(cfg: Config, svc: Service, files: seq<string>, photos: seq<Photo>, setId0: string, n: nat)
    requires n <= |files|
    ensures var log := UploadPrefix(cfg, svc, files, photos, setId0, n).actions;
      forall k :: 0 <= k < |log| && (log[k].CreateSet? || log[k].AddPhoto?) ==>
        (log[k].CreateSet? ==> log[k].title == AlbumTitle(cfg)) &&
        0 < k && exists i :: 0 <= i < n && log[k - 1] == Upload(files[i], Join(cfg.dir, files[i])) &&
                             svc.upload(i) == Ok(AlbumPhoto(log[k]))
  {
    if n > 0 {
      AlbumRequestsFollowUploads(cfg, svc, files, photos, setId0, n - 1);
      UnfoldPrefix(cfg, svc, files, photos, setId0, n);
      var p := UploadPrefix(cfg, svc, files, photos, setId0, n - 1);
      var log := UploadPrefix(cfg, svc, files, photos, setId0, n).actions;
      if p.outcome == Done {
        TurnShape(cfg, svc, photos, p.setId, n - 1, files[n - 1]);
        forall k | 0 <= k < |log| && (log[k].CreateSet? || log[k].AddPhoto?)
          ensures (log[k].CreateSet? ==> log[k].title == AlbumTitle(cfg)) &&
            0 < k && exists i :: 0 <= i < n && log[k - 1] == Upload(files[i], Join(cfg.dir, files[i])) &&
                                 svc.upload(i) == Ok(AlbumPhoto(log[k]))
        {
          if k < |p.actions| {
            assert log[k] == p.actions[k] && log[k - 1] == p.actions[k - 1];
          } else {
            assert k == |p.actions| + 1 && log[k - 1] == Upload(files[n - 1], Join(cfg.dir, files[n - 1]));
          }
        }
      }
    }
  }

  /** An entry that the loop reaches and uploads with success puts its upload
      and, right after it, a create or addPhoto naming the new photo id into
      the log, at the position where the log stood before that entry. */
  lemma UploadFollowedByAlbumRequest(cfg: Config, svc: Service, files: seq<string>, photos: seq<Photo>, setId0: string, n: nat, i: nat)
    requires i < n <= |files|
    requires UploadPrefix(cfg, svc, files, photos, setId0, i).outcome == Done
    requires !Skipped(photos, UploadPrefix(cfg, svc, files, photos, setId0, i).setId, files[i])
    requires svc.upload(i).Ok?
    ensures var log := UploadPrefix(cfg, svc, files, photos, setId0, n).actions;
      var k := |UploadPrefix(cfg, svc, files, photos, setId0, i).actions|;
      k + 1 < |log| && log[k] == Upload(files[i], Join(cfg.dir, files[i])) &&
      (log[k + 1].CreateSet? || log[k + 1].AddPhoto?) && AlbumPhoto(log[k + 1]) == svc.upload(i).value
  {
    var p := UploadPrefix(cfg, svc, files, photos, setId0, i);
    var a := UploadPrefix(cfg, svc, files, photos, setId0, i + 1).actions;
    var log := UploadPrefix(cfg, svc, files, photos, setId0, n).actions;
    UnfoldPrefix(cfg, svc, files, photos, setId0, i + 1);
    var t := TurnOf(cfg, svc, photos, p.setId, i, files[i]);
    TurnShape(cfg, svc, photos, p.setId, i, files[i]);
    assert a == p.actions + t.actions;
    LogExtends(cfg, svc, files, photos, setId0, i + 1, n);
    var k := |p.actions|;
    assert log[k] == a[k] && log[k + 1] == a[k + 1];
  }

  /** A file is skipped only when its title is among the photos loaded at
      resolution: uploads made by the loop never cause a skip. */
  lemma {:induction false} SkipsOnlyPreloaded(cfg: Config, svc: Service, files: seq<string>, photos: seq<Photo>, setId0: string, n: nat)
    requires n <= |files|
    ensures var log := UploadPrefix(cfg, svc, files, photos, setId0, n).actions;
      forall k :: 0 <= k < |log| && log[k].Skip? ==> Listed(photos, TitleOf(log[k].name))
  {
    if n > 0 {
      SkipsOnlyPreloaded(cfg, svc, files, photos, setId0, n - 1);
      UnfoldPrefix(cfg, svc, files, photos, setId0, n);
      var p := UploadPrefix(cfg, svc, files, photos, setId0, n - 1);
      var log := UploadPrefix(cfg, svc, files, photos, setId0, n).actions;
      if p.outcome == Done {
        TurnShape(cfg, svc, photos, p.setId, n - 1, files[n - 1]);
        forall k | 0 <= k < |log| && log[k].Skip?
          ensures Listed(photos, TitleOf(log[k].name))
        {
          if k < |p.actions| {
            assert log[k] == p.actions[k];
          }
        }
      }
    }
  }

  /** A turn handles exactly its own entry, once. */
  lemma TurnNames(cfg: Config, svc: Service, photos: seq<Photo>, setId: string, i: nat, name: string)
    ensures Names(TurnOf(cfg, svc, photos, setId, i, name).actions) == [name]
  {
    var t := TurnOf(cfg, svc, photos, setId, i, name);
    TurnShape(cfg, svc, photos, setId, i, name);
    if |t.actions| == 2 {
      assert t.actions[1..][1..] == [];
    }
  }

  /** The requests handle a prefix of the entries, in order, and the first
      `n` of them when the run goes on. */
  predicate HandlesInOrder(p: Progress, files: seq<string>, n: nat)
    requires n <= |files|
  {
    var ns := Names(p.actions);
    |ns| <= n && ns == files[..|ns|] && (p.outcome == Done ==> ns == files[..n])
  }

  /** One turn handles the next entry. */
  lemma StepHandlesInOrder(cfg: Config, svc: Service, photos: seq<Photo>, p: Progress, files: seq<string>, n: nat)
    requires n < |files| && HandlesInOrder(p, files, n)
    ensures HandlesInOrder(StepFile(cfg, svc, photos, p, n, files[n]), files, n + 1)
  {
    if p.outcome == Done {
      var t := TurnOf(cfg, svc, photos, p.setId, n, files[n]);
      TurnNames(cfg, svc, photos, p.setId, n, files[n]);
      NamesAppend(p.actions, t.actions);
      assert files[..n + 1] == files[..n] + [files[n]];
    }
  }

  /** Every entry is handled once and in directory order, by a skip or an
      upload; a run that is not aborted handles all of them. */
  lemma {:induction false} EntriesInOrder(cfg: Config, svc: Service, files: seq<string>, photos: seq<Photo>, setId0: string, n: nat)
    requires n <= |files|
    ensures HandlesInOrder(UploadPrefix(cfg, svc, files, photos, setId0, n), files, n)
  {
    if n > 0 {
      EntriesInOrder(cfg, svc, files, photos, setId0, n - 1);
      var p := UploadPrefix(cfg, svc, files, photos, setId0, n - 1);
      StepHandlesInOrder(cfg, svc, photos, p, files, n - 1);
    }
  }

  /** A skip for each of the names. */
  function SkipsOf(names: seq<string>): (acts: seq<Action>)
    ensures |acts| == |names| && forall k :: 0 <= k < |names| ==> acts[k] == Skip(names[k])
  {
    seq(|names|, k requires 0 <= k < |names| => Skip(names[k]))
  }

  /** Re-running on an album that already holds a photo of every file's title
      uploads nothing: every entry is skipped. */
  lemma {:induction false} RerunSkipsAll(cfg: Config, svc: Service, files: seq<string>, photos: seq<Photo>, setId0: string, n: nat)
    requires n <= |files|
    requires setId0 != ""
    requires forall i :: 0 <= i < |files| ==> Listed(photos, TitleOf(files[i]))
    ensures UploadPrefix(cfg, svc, files, photos, setId0, n) == Progress(setId0, SkipsOf(files[..n]), Done)
  {
    if n > 0 {
      RerunSkipsAll(cfg, svc, files, photos, setId0, n - 1);
      UnfoldPrefix(cfg, svc, files, photos, setId0, n);
      TurnShape(cfg, svc, photos, setId0, n - 1, files[n - 1]);
      assert SkipsOf(files[..n]) == SkipsOf(files[..n - 1]) + [Skip(files[n - 1])];
    }
  }

  // ---------------------------------------------------------------------
  // Album resolution

  /** With an album name and a first album of exactly that title, its id is
      the album id and only its photos are loaded. */
  lemma ResolveFirstMatch(cfg: Config, svc: Service, k: nat)
    requires cfg.album != "" && svc.setList.Ok?
    requires k < |svc.setList.value| && svc.setList.value[k].title == cfg.album
    requires forall j :: 0 <= j < k ==> svc.setList.value[j].title != cfg.album
    ensures var r := Resolve(cfg, svc);
      var id := svc.setList.value[k].id;
      r.setId == id && r.actions == [GetSetList, GetSetPhotos(id)] &&
      (svc.setPhotos(id).Ok? ==> r.outcome == Done && r.photos == svc.setPhotos(id).value.photos) &&
      (svc.setPhotos(id).Err? ==> r.outcome == Aborted(svc.setPhotos(id).message))
  {
    var ts := Titles(svc.setList.value, SetTitle);
    var f := FirstTitled(ts, cfg.album);
    assert ts[k] == cfg.album;
    assert f == Some(k);
  }

  /** Without an album name, or with one that no album carries, the album id
      and the skip list stay empty. */
  lemma ResolveNoMatch(cfg: Config, svc: Service)
    requires cfg.album == "" ||
      (svc.setList.Ok? && forall j :: 0 <= j < |svc.setList.value| ==> svc.setList.value[j].title != cfg.album)
    ensures var r := Resolve(cfg, svc);
      r.setId == "" && r.photos == [] && r.outcome == Done &&
      r.actions == (if cfg.album == "" then [] else [GetSetList])
  {
  }

  // ---------------------------------------------------------------------
  // The collection step

  /** The collection step issues a request exactly when an album id and a
      collection name are both there; otherwise it ends normally. */
  lemma AttachRunsOnlyWithBoth(cfg: Config, svc: Service, setId: string)
    ensures var a := Attach(cfg, svc, setId);
      (a.actions == [] <==> setId == "" || cfg.collection == "") &&
      (a.actions == [] ==> a.outcome == Done)
  {
  }

  /** The first collection of exactly the requested title is used, and no
      collection is created when it has an id. */
  lemma AttachUsesFirstMatch(cfg: Config, svc: Service, setId: string, k: nat)
    requires setId != "" && cfg.collection != "" && svc.tree.Ok?
    requires k < |svc.tree.value| && svc.tree.value[k].title == cfg.collection
    requires forall j :: 0 <= j < k ==> svc.tree.value[j].title != cfg.collection
    requires svc.tree.value[k].id != ""
    ensures Attach(cfg, svc, setId) == Phase([GetTree, AddSet(svc.tree.value[k].id, setId)], AddSetOutcome(svc.addSet))
  {
    var ts := Titles(svc.tree.value, CollectionTitle);
    var f := FirstTitled(ts, cfg.collection);
    assert ts[k] == cfg.collection;
    assert f == Some(k);
  }

  /** No collection with the title can take the album: none carries the
      title, or the first one that does has an empty id. */
  ghost predicate NoUsableCollection(cs: seq<Collection>, title: string) {
    (forall j :: 0 <= j < |cs| ==> cs[j].title != title) ||
    exists k :: 0 <= k < |cs| && cs[k].title == title && cs[k].id == "" &&
      forall j :: 0 <= j < k ==> cs[j].title != title
  }

  /** When no collection of the requested title has an id, the collection is
      created (even if an id-less one of that title exists), and the album is
      added to the new collection. */
  lemma AttachCreatesWhenAbsent(cfg: Config, svc: Service, setId: string)
    requires setId != "" && cfg.collection != "" && svc.tree.Ok?
    requires NoUsableCollection(svc.tree.value, cfg.collection)
    ensures var a := Attach(cfg, svc, setId);
      a.actions[..2] == [GetTree, CreateCollection(cfg.collection)] &&
      (svc.createdCollection.Err? ==> a == Phase(a.actions[..2], Aborted(svc.createdCollection.message))) &&
      (svc.createdCollection.Ok? ==>
        a == Phase(a.actions[..2] + [AddSet(svc.createdCollection.value.id, setId)], AddSetOutcome(svc.addSet)))
  {
    var cs := svc.tree.value;
    var ts := Titles(cs, CollectionTitle);
    if !forall j :: 0 <= j < |cs| ==> cs[j].title != cfg.collection {
      var k :| 0 <= k < |cs| && cs[k].title == cfg.collection && cs[k].id == "" &&
        forall j :: 0 <= j < k ==> cs[j].title != cfg.collection;
      assert ts[k] == cfg.collection;
      assert FirstTitled(ts, cfg.collection) == Some(k);
    }
  }

  /** The collection step creates a collection exactly when it runs, the tree
      is read, and no collection of the requested title has an id. */
  lemma AttachCreatesCollectionIff(cfg: Config, svc: Service, setId: string)
    ensures CreateCollection(cfg.collection) in Attach(cfg, svc, setId).actions <==>
      setId != "" && cfg.collection != "" && svc.tree.Ok? && NoUsableCollection(svc.tree.value, cfg.collection)
  {
    if setId != "" && cfg.collection != "" && svc.tree.Ok? {
      var cs := svc.tree.value;
      if NoUsableCollection(cs, cfg.collection) {
        AttachCreatesWhenAbsent(cfg, svc, setId);
        assert Attach(cfg, svc, setId).actions[1] == CreateCollection(cfg.collection);
      } else {
        var f := FirstTitled(Titles(cs, CollectionTitle), cfg.collection);
        assert f.Some? && cs[f.value].id != "";
        AttachUsesFirstMatch(cfg, svc, setId, f.value);
      }
    }
  }

  // ---------------------------------------------------------------------
  // The whole run

  /** Album resolution creates no album. */
  lemma ResolveCreatesNothing(cfg: Config, svc: Service)
    ensures CountCreates(Resolve(cfg, svc).actions) == 0
  {
    CountCreatesZero(Resolve(cfg, svc).actions);
  }

  /** The collection step creates no album. */
  lemma AttachCreatesNothing(cfg: Config, svc: Service, setId: string)
    ensures CountCreates(Attach(cfg, svc, setId).actions) == 0
  {
    CountCreatesZero(Attach(cfg, svc, setId).actions);
  }

  /** Over a whole run at most one album is created (provided created albums
      get a non-empty id), and none when resolution found the album. */
  lemma RunCreatesAtMostOnce(cfg: Config, svc: Service)
    requires CreatedIdsNonEmpty(svc)
    ensures CountCreates(RunOf(cfg, svc).actions) <= 1
    ensures Resolve(cfg, svc).setId != "" ==> CountCreates(RunOf(cfg, svc).actions) == 0
  {
    var res := Resolve(cfg, svc);
    ResolveCreatesNothing(cfg, svc);
    if res.outcome == Done && svc.entries.Ok? {
      var files := svc.entries.value;
      var up := UploadPrefix(cfg, svc, files, res.photos, res.setId, |files|);
      CreateAtMostOnce(cfg, svc, files, res.photos, res.setId, |files|);
      CountCreatesAppend(res.actions, up.actions);
      if up.outcome == Done {
        var at := Attach(cfg, svc, up.setId);
        AttachCreatesNothing(cfg, svc, up.setId);
        CountCreatesAppend(res.actions + up.actions, at.actions);
        assert RunOf(cfg, svc).actions == res.actions + up.actions + at.actions;
      } else {
        assert RunOf(cfg, svc).actions == res.actions + up.actions;
      }
    } else {
      assert RunOf(cfg, svc).actions == res.actions;
    }
  }

  /** When resolution found no album and the upload loop completes after at
      least one successful upload, the run creates exactly one album
      (provided created albums get a non-empty id). */
  lemma RunCreatesExactlyOnce(cfg: Config, svc: Service)
    requires CreatedIdsNonEmpty(svc)
    requires Resolve(cfg, svc).outcome == Done && Resolve(cfg, svc).setId == "" && svc.entries.Ok?
    requires UploadPrefix(cfg, svc, svc.entries.value, Resolve(cfg, svc).photos, "", |svc.entries.value|).outcome == Done
    requires exists i :: 0 <= i < |svc.entries.value| && svc.upload(i).Ok?
    ensures CountCreates(RunOf(cfg, svc).actions) == 1
  {
    RunCreatesAtMostOnce(cfg, svc);
    var res := Resolve(cfg, svc);
    var files := svc.entries.value;
    var up := UploadPrefix(cfg, svc, files, res.photos, "", |files|);
    var at := Attach(cfg, svc, up.setId);
    ResolveCreatesNothing(cfg, svc);
    CreatesAtLeastOnce(cfg, svc, files, res.photos, |files|);
    AttachCreatesNothing(cfg, svc, up.setId);
    CountCreatesAppend(res.actions, up.actions);
    CountCreatesAppend(res.actions + up.actions, at.actions);
    assert RunOf(cfg, svc).actions == res.actions + up.actions + at.actions;
  }

  /** An upload that fails with any error other than "not an image" ends
      the whole run right there: the failed upload is the last request, and
      no later entry and no collection step is handled. */
  lemma UploadFailureEndsRun(cfg: Config, svc: Service, m: nat)
    requires Resolve(cfg, svc).outcome == Done && svc.entries.Ok? && m < |svc.entries.value|
    requires UploadPrefix(cfg, svc, svc.entries.value, Resolve(cfg, svc).photos, Resolve(cfg, svc).setId, m).outcome == Done
    requires !Skipped(Resolve(cfg, svc).photos,
                      UploadPrefix(cfg, svc, svc.entries.value, Resolve(cfg, svc).photos, Resolve(cfg, svc).setId, m).setId,
                      svc.entries.value[m])
    requires svc.upload(m).Err? && svc.upload(m).message != NotImageMessage(Join(cfg.dir, svc.entries.value[m]))
    ensures var res := Resolve(cfg, svc);
      var files := svc.entries.value;
      RunOf(cfg, svc) ==
        Phase(res.actions + UploadPrefix(cfg, svc, files, res.photos, res.setId, m).actions +
                [Upload(files[m], Join(cfg.dir, files[m]))],
              Aborted(svc.upload(m).message))
  {
    var res := Resolve(cfg, svc);
    var files := svc.entries.value;
    var p := UploadPrefix(cfg, svc, files, res.photos, res.setId, m);
    UnfoldPrefix(cfg, svc, files, res.photos, res.setId, m + 1);
    TurnUploadError(cfg, svc, res.photos, p.setId, m, files[m]);
    AbortSticky(cfg, svc, files, res.photos, res.setId, m + 1, |files|);
  }

  /** A re-run into an album that holds a photo of every file's title
      uploads nothing. */
  lemma RerunUploadsNothing(cfg: Config, svc: Service, k: nat)
    requires cfg.album != "" && svc.setList.Ok?
    requires k < |svc.setList.value| && svc.setList.value[k].title == cfg.album
    requires forall j :: 0 <= j < k ==> svc.setList.value[j].title != cfg.album
    requires svc.setList.value[k].id != "" && svc.setPhotos(svc.setList.value[k].id).Ok?
    requires svc.entries.Ok?
    requires forall i :: 0 <= i < |svc.entries.value| ==>
      Listed(svc.setPhotos(svc.setList.value[k].id).value.photos, TitleOf(svc.entries.value[i]))
    ensures forall a :: a in RunOf(cfg, svc).actions ==> !a.Upload? && !a.CreateSet? && !a.AddPhoto?
  {
    ResolveFirstMatch(cfg, svc, k);
    var res := Resolve(cfg, svc);
    var files := svc.entries.value;
    RerunSkipsAll(cfg, svc, files, res.photos, res.setId, |files|);
    var up := UploadPrefix(cfg, svc, files, res.photos, res.setId, |files|);
    var at := Attach(cfg, svc, up.setId);
    assert RunOf(cfg, svc).actions == res.actions + up.actions + at.actions;
  }
}
