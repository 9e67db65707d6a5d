/** The records the uploader reads from the photo service's replies, the
    service's replies themselves, and the error check that ends a run. */
module Records {

  datatype Option<T> = None | Some(value: T)

  /** A photo: its id and its title. */
  datatype Photo = Photo(id: string, title: string)

  /** An album ("photoset"): its id, its title and, in a getPhotos reply,
      its member photos. */
  datatype Photoset = Photoset(id: string, title: string, photos: seq<Photo>)

  /** A collection of albums: its id and its title. */
  datatype Collection = Collection(id: string, title: string)

  /** What a call to the service gives back once its reply has been parsed:
      the parsed value, or the text of the error (a failed call or an
      unparsable reply). */
  datatype Reply<T> = Ok(value: T) | Err(message: string) {
    /** The error of the reply; None stands for a nil error. */
    function Error(): (e: Option<string>)
      ensures e.None? <==> Ok?
      ensures e.Some? ==> e.value == message
    {
      if Ok? then None else Some(message)
    }
  }

  /** How a run ends: normally, or by a panic carrying the error text. */
  datatype Outcome = Done | Aborted(message: string)

  /** The error check: a nil error lets the run go on, any other error ends it. */
  function CheckErr(e: Option<string>): (o: Outcome)
    ensures o == Done <==> e.None?
    ensures o.Aborted? ==> o.message == e.value
  {
    match e
    case None => Done
    case Some(m) => Aborted(m)
  }

  /** The position of the first title that equals `t` exactly, if any. */
  function FirstTitled(titles: seq<string>, t: string): (r: Option<nat>)
    ensures r.Some? ==> r.value < |titles| && titles[r.value] == t
    ensures r.Some? ==> forall j :: 0 <= j < r.value ==> titles[j] != t
    ensures r.None? ==> forall j :: 0 <= j < |titles| ==> titles[j] != t
  {
    if titles == [] then None
    else if titles[0] == t then Some(0)
    else
      match FirstTitled(titles[1..], t)
      case None => None
      case Some(k) => Some(k + 1)
  }

  /** The titles of a list of records, in order. */
  function Titles<T>(xs: seq<T>, title: T -> string): (ts: seq<string>)
    ensures |ts| == |xs| && forall j :: 0 <= j < |xs| ==> ts[j] == title(xs[j])
  {
    seq(|xs|, j requires 0 <= j < |xs| => title(xs[j]))
  }

  function SetTitle(s: Photoset): string {
    s.title
  }

  function CollectionTitle(c: Collection): string {
    c.title
  }

  /** Some photo of the list has exactly the title `t`. */
  predicate Listed(photos: seq<Photo>, t: string) {
    exists j :: 0 <= j < |photos| && photos[j].title == t
  }
}
