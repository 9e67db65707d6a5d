/** Worked runs of the uploader on small directories, computed from the
    model and stated as facts about RunOf. */
module UploadScenarios {
  import opened Paths
  import opened Records
  import opened UploadModel

  /** Extensions and titles of a few names: only the part after the last '.'
      of the last element is an extension. */
  lemma TitleExamples()
    ensures Ext("a.tar.gz") == ".gz" && TitleOf("a.tar.gz") == "a.tar"
    ensures Ext(".jpg") == ".jpg" && TitleOf(".jpg") == ""
    ensures Ext("IMG_01") == "" && TitleOf("IMG_01") == "IMG_01"
  {
    ExtUnique("a.tar.gz", ".gz");
    ExtUnique(".jpg", ".jpg");
    ExtWithoutDot("IMG_01");
  }

  /** Last elements of a few directory paths, as album names: trailing
      separators are ignored. */
  lemma BaseExamples()
    ensures Base("") == "." && Base("///") == "/"
    ensures Base("/home/me/holiday/") == "holiday"
  {
    assert "//"[..1] == "/" && "///"[..2] == "//";
    assert TrimSlashes("/") == "" && TrimSlashes("//") == "" && TrimSlashes("///") == "";
    assert "/home/me/holiday/"[..16] == "/home/me/holiday";
    assert TrimSlashes("/home/me/holiday/") == "/home/me/holiday";
    LastElementAfterSlash("/home/me", "holiday");
    assert "/home/me/holiday" == "/home/me" + "/" + "holiday";
  }

  /** A service that lists no albums and no collections, gives the first
      uploaded photo id p0 and later ones p1, and names every created album
      s1. */
  function FreshService(files: seq<string>): Service {
    Service(
      Ok([]),
      id => Err("no such album"),
      Ok(files),
      i => Ok(if i == 0 then "p0" else "p1"),
      i => Ok(Photoset("s1", "", [])),
      i => Ok(()),
      Ok([]),
      Ok(Collection("c1", "")),
      Ok(()))
  }

  /** Uploading a directory with no album name: the album is created after
      the directory's last element, with the first photo as primary, and the
      second photo is added to it. */
  lemma NewAlbumFromDirectory()
    ensures RunOf(Config("/home/me/holiday", "", ""), FreshService(["a.jpg", "b.jpg"])) ==
      Phase([Upload("a.jpg", "/home/me/holiday/a.jpg"), CreateSet("holiday", "p0"),
             Upload("b.jpg", "/home/me/holiday/b.jpg"), AddPhoto("s1", "p1")], Done)
  {
    var cfg := Config("/home/me/holiday", "", "");
    var files := ["a.jpg", "b.jpg"];
    var svc := FreshService(files);
    LastElementAfterSlash("/home/me", "holiday");
    assert "/home/me/holiday" == "/home/me" + "/" + "holiday";
    assert AlbumTitle(cfg) == "holiday";
    assert Resolve(cfg, svc) == Resolution([], Done, "", []);
    assert Join(cfg.dir, "a.jpg") == "/home/me/holiday/a.jpg";
    assert Join(cfg.dir, "b.jpg") == "/home/me/holiday/b.jpg";
    assert UploadPrefix(cfg, svc, files, [], "", 1) ==
      Progress("s1", [Upload("a.jpg", "/home/me/holiday/a.jpg"), CreateSet("holiday", "p0")], Done);
    assert UploadPrefix(cfg, svc, files, [], "", 2) ==
      Progress("s1", [Upload("a.jpg", "/home/me/holiday/a.jpg"), CreateSet("holiday", "p0"),
             Upload("b.jpg", "/home/me/holiday/b.jpg"), AddPhoto("s1", "p1")], Done);
  }

  /** A service whose album list holds one album "holiday", id s1, that
      already contains photos titled "a" and "b". */
  function KnownAlbumService(files: seq<string>): Service {
    Service(
      Ok([Photoset("s1", "holiday", [])]),
      id => if id == "s1" then Ok(Photoset("s1", "holiday", [Photo("p0", "a"), Photo("p1", "b")]))
            else Err("no such album"),
      Ok(files),
      i => Ok("p9"),
      i => Ok(Photoset("s2", "", [])),
      i => Ok(()),
      Ok([]),
      Ok(Collection("c1", "")),
      Ok(()))
  }

  /** Running again on the same directory into the album it created skips
      every entry, whatever its extension, and uploads nothing. */
  lemma RerunSkipsKnownTitles()
    ensures RunOf(Config("/home/me/holiday", "holiday", ""), KnownAlbumService(["a.jpg", "b.png"])) ==
      Phase([GetSetList, GetSetPhotos("s1"), Skip("a.jpg"), Skip("b.png")], Done)
  {
    var cfg := Config("/home/me/holiday", "holiday", "");
    var files := ["a.jpg", "b.png"];
    var svc := KnownAlbumService(files);
    ExtUnique("a.jpg", ".jpg");
    ExtUnique("b.png", ".png");
    var photos := [Photo("p0", "a"), Photo("p1", "b")];
    assert Listed(photos, "a") && Listed(photos, "b") by {
      assert photos[0].title == "a" && photos[1].title == "b";
    }
    assert FirstTitled(Titles([Photoset("s1", "holiday", [])], SetTitle), "holiday") == Some(0);
    assert Resolve(cfg, svc) == Resolution([GetSetList, GetSetPhotos("s1")], Done, "s1", photos);
    assert UploadPrefix(cfg, svc, files, photos, "s1", 1) == Progress("s1", [Skip("a.jpg")], Done);
    assert UploadPrefix(cfg, svc, files, photos, "s1", 2) == Progress("s1", [Skip("a.jpg"), Skip("b.png")], Done);
  }

  /** Two entries of the same title are both uploaded into a new album: the
      first upload does not make the second entry a skip. */
  lemma SameTitleUploadedTwice()
    ensures RunOf(Config("/d", "trip", ""), FreshService(["a.jpg", "a.png"])) ==
      Phase([GetSetList, Upload("a.jpg", "/d/a.jpg"), CreateSet("trip", "p0"),
             Upload("a.png", "/d/a.png"), AddPhoto("s1", "p1")], Done)
  {
    var cfg := Config("/d", "trip", "");
    var files := ["a.jpg", "a.png"];
    var svc := FreshService(files);
    assert Resolve(cfg, svc) == Resolution([GetSetList], Done, "", []);
    assert Join(cfg.dir, "a.jpg") == "/d/a.jpg";
    assert Join(cfg.dir, "a.png") == "/d/a.png";
    assert !Listed([], "a");
    assert UploadPrefix(cfg, svc, files, [], "", 1) ==
      Progress("s1", [Upload("a.jpg", "/d/a.jpg"), CreateSet("trip", "p0")], Done);
  }

  /** The same service, except that the first upload fails with `message`. */
  function FirstUploadFails(files: seq<string>, message: string): Service {
    Service(
      Ok([]),
      id => Err("no such album"),
      Ok(files),
      i => if i == 0 then Err(message) else Ok("p1"),
      i => Ok(Photoset("s1", "", [])),
      i => Ok(()),
      Ok([]),
      Ok(Collection("c1", "")),
      Ok(()))
  }

  /** An entry the service reports, in exactly the expected words (its path
      followed by " is not an image."), as not an image is passed over, and
      the next entry creates the album. */
  lemma NotAnImagePassedOver()
    ensures RunOf(Config("/d", "x", ""), FirstUploadFails(["notes.txt", "b.jpg"], NotImageMessage("/d/notes.txt"))) ==
      Phase([GetSetList, Upload("notes.txt", "/d/notes.txt"), Upload("b.jpg", "/d/b.jpg"), CreateSet("x", "p1")], Done)
  {
    var cfg := Config("/d", "x", "");
    var files := ["notes.txt", "b.jpg"];
    var svc := FirstUploadFails(files, NotImageMessage("/d/notes.txt"));
    assert Join(cfg.dir, "notes.txt") == "/d/notes.txt";
    assert Join(cfg.dir, "b.jpg") == "/d/b.jpg";
    assert svc.upload(0) == Err(NotImageMessage("/d/notes.txt")) && svc.upload(1) == Ok("p1");
    assert svc.created(1) == Ok(Photoset("s1", "", []));
    assert Resolve(cfg, svc) == Resolution([GetSetList], Done, "", []);
    var p1 := Progress("", [Upload("notes.txt", "/d/notes.txt")], Done);
    assert UploadPrefix(cfg, svc, files, [], "", 1) == p1;
    assert TurnOf(cfg, svc, [], "", 1, "b.jpg") ==
      Turn([Upload("b.jpg", "/d/b.jpg"), CreateSet("x", "p1")], Done, "s1");
    assert UploadPrefix(cfg, svc, files, [], "", 2) ==
      Progress("s1", [Upload("notes.txt", "/d/notes.txt"), Upload("b.jpg", "/d/b.jpg"), CreateSet("x", "p1")], Done);
  }

  /** Any other upload error ends the run at that entry. */
  lemma OtherUploadErrorAborts()
    ensures RunOf(Config("/d", "", ""), FirstUploadFails(["notes.txt", "b.jpg"], "notes.txt: not an image")) ==
      Phase([Upload("notes.txt", "/d/notes.txt")], Aborted("notes.txt: not an image"))
  {
    var cfg := Config("/d", "", "");
    var files := ["notes.txt", "b.jpg"];
    var svc := FirstUploadFails(files, "notes.txt: not an image");
    assert Join(cfg.dir, "notes.txt") == "/d/notes.txt";
    assert NotImageMessage("/d/notes.txt") != "notes.txt: not an image" by {
      assert NotImageMessage("/d/notes.txt")[0] == '/';
    }
    assert UploadPrefix(cfg, svc, files, [], "", 1) ==
      Progress("", [Upload("notes.txt", "/d/notes.txt")], Aborted("notes.txt: not an image"));
  }

  /** With a collection named, the new album is added to the collection
      found by title; an addSet reply saying it is already there still ends
      the run normally, any other error does not. */
  lemma AlreadyInCollection(other: string)
    requires other != "4: Set already in collection"
    ensures var svc := FreshService(["a.jpg"]).(tree := Ok([Collection("c7", "trips")]));
      var cfg := Config("/d", "x", "trips");
      var acts := [GetSetList, Upload("a.jpg", "/d/a.jpg"), CreateSet("x", "p0"), GetTree, AddSet("c7", "s1")];
      RunOf(cfg, svc.(addSet := Err("4: Set already in collection"))) == Phase(acts, Done) &&
      RunOf(cfg, svc.(addSet := Err(other))) == Phase(acts, Aborted(other))
  {
    var cfg := Config("/d", "x", "trips");
    var files := ["a.jpg"];
    var svc := FreshService(files).(tree := Ok([Collection("c7", "trips")]));
    assert Join(cfg.dir, "a.jpg") == "/d/a.jpg";
    assert FirstTitled(Titles([Collection("c7", "trips")], CollectionTitle), "trips") == Some(0);
    var up := Progress("s1", [Upload("a.jpg", "/d/a.jpg"), CreateSet("x", "p0")], Done);
    assert UploadPrefix(cfg, svc.(addSet := Err("4: Set already in collection")), files, [], "", 1) == up;
    assert UploadPrefix(cfg, svc.(addSet := Err(other)), files, [], "", 1) == up;
  }
}
