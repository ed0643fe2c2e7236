/**
 * The gallery service of server.js: the name multer gives a stored upload,
 * the record the upload handler builds, and the process-lifetime list of
 * records that POST /api/gallery appends to and GET /api/gallery returns.
 * Clock readings are parameters; HTTP, the disk write and JSON are not modelled.
 */
module Gallery {
  import opened JsText

  const UploadsPrefix := "/uploads/"
  const ImagePrefix := "image/"
  const NoFileError := "No file uploaded"

  /** The `type` field of a record: only ever one of these two. */
  datatype MediaType = Image | Video {
    /** The string the record carries in JSON. */
    function Label(): (s: string)
      ensures s == "image" || s == "video"
      ensures s == "image" <==> this == Image
    {
      if Image? then "image" else "video"
    }
  }

  /** The fields of `req.file` the handler reads, as multer fills them in. */
  datatype UploadedFile = UploadedFile(originalname: string, mimetype: string, filename: string)

  /** The text fields of the multipart form; each is `undefined` or a string. */
  datatype Body = Body(name: Option<string>, message: Option<string>)

  /** One gallery record, as pushed onto the list and sent back as JSON. */
  datatype Item = Item(id: nat, kind: MediaType, src: string, name: string, message: string)

  /** What a POST answers: the new record (status 200) or an error body. */
  datatype Response = Ok(item: Item) | Err(status: nat, error: string) {
    function Status(): (code: nat)
      ensures Ok? ==> code == 200
      ensures Err? ==> code == status
    {
      if Ok? then 200 else status
    }
  }

  /* ---------------------------------------------------------------------- */
  /* The stored-file name (multer's `filename` callback)                     */
  /* ---------------------------------------------------------------------- */

  /** `Date.now() + '-' + file.originalname`, with the clock reading as `clock`. */
  function StoredFilename(clock: nat, originalname: string): (f: string)
    ensures |f| == |Decimal(clock)| + 1 + |originalname|
    ensures f[..|Decimal(clock)|] == Decimal(clock)
    ensures f[|Decimal(clock)|] == '-'
    ensures f[|f| - |originalname| - 1..] == "-" + originalname
  {
    Decimal(clock) + "-" + originalname
  }

  /**
   * Splits a stored name at its first `-` into the clock reading and the
   * original name; `None` when the part before the dash is not a number.
   */
  function ParseStoredFilename(f: string): (r: Option<(nat, string)>)
    ensures r.Some? ==> FirstIndexOf(f, '-') < |f|
  {
    var i := FirstIndexOf(f, '-');
    if i == |f| || i == 0 || !AllDigits(f[..i]) then None
    else Some((DigitsValue(f[..i]), f[i + 1..]))
  }

  /**
   * The stored name determines both the clock reading and the original name,
   * even when the original name itself contains dashes.
   */
  lemma StoredFilenameRoundTrip(clock: nat, originalname: string)
    ensures ParseStoredFilename(StoredFilename(clock, originalname)) == Some((clock, originalname))
  {
    var d := Decimal(clock);
    var f := StoredFilename(clock, originalname);
    var i := FirstIndexOf(f, '-');
    assert i == |d|;
    assert f[..i] == d;
    assert f[i + 1..] == originalname;
    DecimalRoundTrip(clock);
  }

  /** Two uploads get the same stored name only with the same clock reading and original name. */
  lemma StoredFilenameInjective(c1: nat, o1: string, c2: nat, o2: string)
    requires StoredFilename(c1, o1) == StoredFilename(c2, o2)
    ensures c1 == c2 && o1 == o2
  {
    StoredFilenameRoundTrip(c1, o1);
    StoredFilenameRoundTrip(c2, o2);
  }

  /** What multer hands the handler for a part it has stored on disk. */
  function Received(originalname: string, mimetype: string, clock: nat): (file: UploadedFile)
    ensures file.originalname == originalname && file.mimetype == mimetype
    ensures file.filename == StoredFilename(clock, originalname)
    ensures ParseStoredFilename(file.filename) == Some((clock, originalname))
  {
    StoredFilenameRoundTrip(clock, originalname);
    UploadedFile(originalname, mimetype, StoredFilename(clock, originalname))
  }

  /* ---------------------------------------------------------------------- */
  /* Building a record                                                       */
  /* ---------------------------------------------------------------------- */

  /** `mimetype.startsWith('image/') ? 'image' : 'video'` */
  function Classify(mimetype: string): (t: MediaType)
    ensures t == Image <==> |mimetype| >= 6 && mimetype[..6] == "image/"
    ensures t == Video <==> !(|mimetype| >= 6 && mimetype[..6] == "image/")
  {
    if StartsWith(mimetype, ImagePrefix) then Image else Video
  }

  /** The record the upload handler builds; `now` is the clock reading taken for `id`. */
  function BuildItem(file: UploadedFile, body: Body, now: nat): (it: Item)
    ensures it.id == now
    ensures it.kind.Label() == "image" <==> StartsWith(file.mimetype, "image/")
    ensures it.kind.Label() == "video" <==> !StartsWith(file.mimetype, "image/")
    ensures |it.src| == 9 + |file.filename|
    ensures it.src[..9] == "/uploads/" && it.src[9..] == file.filename
    ensures body.name.Some? && body.name.value != "" ==> it.name == body.name.value
    ensures body.name.None? || body.name.value == "" ==> it.name == "Anonymous"
    ensures body.message.Some? && body.message.value != "" ==> it.message == body.message.value
    ensures body.message.None? || body.message.value == "" ==> it.message == ""
  {
    Item(now, Classify(file.mimetype), UploadsPrefix + file.filename,
         Or(body.name, "Anonymous"), Or(body.message, ""))
  }

  /** What every record in the list satisfies: a path under /uploads/ and a non-empty name. */
  predicate WellFormed(it: Item) {
    StartsWith(it.src, UploadsPrefix) && it.name != ""
  }

  predicate AllWellFormed(items: seq<Item>) {
    forall i :: 0 <= i < |items| ==> WellFormed(items[i])
  }

  lemma BuildItemWellFormed(file: UploadedFile, body: Body, now: nat)
    ensures WellFormed(BuildItem(file, body, now))
  {
  }

  /** For a file multer stored, the record's src ends with a dash and the original name. */
  lemma SrcEndsWithOriginalName(originalname: string, mimetype: string, clock: nat, body: Body, now: nat)
    ensures var src := BuildItem(Received(originalname, mimetype, clock), body, now).src;
            |src| > |originalname| &&
            src[|src| - |originalname| - 1..] == "-" + originalname
  {
  }

  /* ---------------------------------------------------------------------- */
  /* The store                                                               */
  /* ---------------------------------------------------------------------- */

  /**
   * The effect of one POST on the list: the response and the list afterwards.
   * Without a file the answer is 400 and the list is as it was; with one, a
   * single record is appended at the end and sent back.
   */
  function PostOutcome(items: seq<Item>, file: Option<UploadedFile>, body: Body, now: nat)
    : (o: (Response, seq<Item>))
    ensures file.None? ==> o.0 == Err(400, "No file uploaded") && o.0.Status() == 400 && o.1 == items
    ensures file.Some? ==> o.0.Ok? && o.0.Status() == 200 && o.0.item == BuildItem(file.value, body, now)
    ensures file.Some? ==> |o.1| == |items| + 1 && o.1[..|items|] == items && o.1[|items|] == o.0.item
  {
    match file
    case None => (Err(400, NoFileError), items)
    case Some(f) =>
      var it := BuildItem(f, body, now);
      (Ok(it), items + [it])
  }

  /** One POST request: the file multer stored (if any), the text fields and the id clock reading. */
  datatype Request = Request(file: Option<UploadedFile>, body: Body, now: nat)

  /** The list after a run of POST requests, handled one after another. */
  function AfterPosts(items: seq<Item>, reqs: seq<Request>): seq<Item>
    decreases |reqs|
  {
    if reqs == [] then items
    else
      var r := reqs[0];
      AfterPosts(PostOutcome(items, r.file, r.body, r.now).1, reqs[1..])
  }

  /** How many of the requests carried a file. */
  function Uploads(reqs: seq<Request>): nat
  {
    if reqs == [] then 0 else (if reqs[0].file.Some? then 1 else 0) + Uploads(reqs[1..])
  }

  /** After the POSTs the list has grown by exactly the number that carried a file. */
  lemma {:induction false} AfterPostsCount(items: seq<Item>, reqs: seq<Request>)
    ensures |AfterPosts(items, reqs)| == |items| + Uploads(reqs)
    decreases |reqs|
  {
    if reqs != [] {
      var r := reqs[0];
      AfterPostsCount(PostOutcome(items, r.file, r.body, r.now).1, reqs[1..]);
    }
  }

  /** Records already in the list stay where they were, unchanged. */
  lemma {:induction false} AfterPostsKeepsPrefix(items: seq<Item>, reqs: seq<Request>)
    ensures |items| <= |AfterPosts(items, reqs)|
    ensures AfterPosts(items, reqs)[..|items|] == items
    decreases |reqs|
  {
    if reqs != [] {
      var r := reqs[0];
      var next := PostOutcome(items, r.file, r.body, r.now).1;
      AfterPostsKeepsPrefix(next, reqs[1..]);
      assert next[..|items|] == items;
      assert AfterPosts(items, reqs)[..|next|][..|items|] == next[..|items|];
    }
  }

  /** Every record the POSTs leave in the list is well formed, given that the old ones were. */
  lemma {:induction false} AfterPostsWellFormed(items: seq<Item>, reqs: seq<Request>)
    requires AllWellFormed(items)
    ensures AllWellFormed(AfterPosts(items, reqs))
    decreases |reqs|
  {
    if reqs != [] {
      var r := reqs[0];
      var next := PostOutcome(items, r.file, r.body, r.now).1;
      if r.file.Some? {
        BuildItemWellFormed(r.file.value, r.body, r.now);
        assert forall i :: 0 <= i < |next| ==> next[i] == if i < |items| then items[i] else next[|items|];
      }
      AfterPostsWellFormed(next, reqs[1..]);
    }
  }

  /** N uploads into a fresh list leave exactly N records. */
  lemma FreshStoreAfterUploads(reqs: seq<Request>)
    requires forall i :: 0 <= i < |reqs| ==> reqs[i].file.Some?
    ensures |AfterPosts([], reqs)| == |reqs|
  {
    AfterPostsCount([], reqs);
    AllUploads(reqs);
  }

  lemma {:induction false} AllUploads(reqs: seq<Request>)
    requires forall i :: 0 <= i < |reqs| ==> reqs[i].file.Some?
    ensures Uploads(reqs) == |reqs|
    decreases |reqs|
  {
    if reqs != [] {
      AllUploads(reqs[1..]);
    }
  }

  /** The module-level `galleryItems` array together with the two route handlers. */
  class Store {
    var items: seq<Item>

    ghost predicate Valid()
      reads this
    {
      AllWellFormed(items)
    }

    /** `let galleryItems = []` */
    constructor ()
      ensures Valid() && items == []
    {
      items := [];
    }

    /** GET /api/gallery: the list as stored, in insertion order; nothing changes. */
    method List() returns (r: seq<Item>)
      ensures r == items
    {
      r := items;
    }

    /** POST /api/gallery, after multer has run: 400 without a file, else push and echo. */
    method Post(file: Option<UploadedFile>, body: Body, now: nat) returns (resp: Response)
      requires Valid()
      modifies this
      ensures Valid()
      ensures (resp, items) == PostOutcome(old(items), file, body, now)
    {
      if file.None? {
        return Err(400, NoFileError);
      }
      var it := BuildItem(file.value, body, now);
      BuildItemWellFormed(file.value, body, now);
      items := items + [it];
      resp := Ok(it);
    }
  }

  /** A run of POST requests handled one after another on the same store. */
  method RunPosts(s: Store, reqs: seq<Request>)
    requires s.Valid()
    modifies s
    ensures s.Valid()
    ensures s.items == AfterPosts(old(s.items), reqs)
  {
    var k := 0;
    while k < |reqs|
      invariant 0 <= k <= |reqs|
      invariant s.Valid()
      invariant AfterPosts(old(s.items), reqs) == AfterPosts(s.items, reqs[k..])
    {
      assert reqs[k..][1..] == reqs[k + 1..];
      var r := reqs[k];
      var _ := s.Post(r.file, r.body, r.now);
      k := k + 1;
    }
    assert reqs[k..] == [];
  }

  /** N POSTs that all carry a file, on a fresh store, then GET: exactly N records, in order. */
  method UploadsThenList(reqs: seq<Request>) returns (r: seq<Item>)
    requires forall i :: 0 <= i < |reqs| ==> reqs[i].file.Some?
    ensures |r| == |reqs|
    ensures AllWellFormed(r)
    ensures r == AfterPosts([], reqs)
  {
    var store := new Store();
    RunPosts(store, reqs);
    r := store.List();
    FreshStoreAfterUploads(reqs);
  }

  /** GET on a fresh store answers with the empty list. */
  method FreshStoreListsEmpty() returns (r: seq<Item>)
    ensures r == []
  {
    var store := new Store();
    r := store.List();
  }

  /** POST of a JPEG named cat.jpg with name Alice and message hi. */
  method UploadCatScenario(fileClock: nat, now: nat) returns (resp: Response, listed: seq<Item>)
    ensures resp.Ok? && resp.Status() == 200
    ensures resp.item.kind.Label() == "image"
    ensures resp.item.name == "Alice" && resp.item.message == "hi" && resp.item.id == now
    ensures resp.item.src != ""
    ensures listed == [resp.item]
  {
    var store := new Store();
    var file := Received("cat.jpg", "image/jpeg", fileClock);
    resp := store.Post(Some(file), Body(Some("Alice"), Some("hi")), now);
    listed := store.List();
  }

  /** POST without a file part: 400 with the error, and the list stays empty. */
  method NoFileScenario(now: nat) returns (resp: Response, listed: seq<Item>)
    ensures resp == Err(400, "No file uploaded") && resp.Status() == 400
    ensures listed == []
  {
    var store := new Store();
    resp := store.Post(None, Body(Some("Alice"), None), now);
    listed := store.List();
  }
}
