/** The media tables' grouping of a flat list of documents (certificates,
    awards) and a flat list of media files (videos, photos) into one bucket
    per user, together with the per-kind counts, the completeness status
    and the contents of the item dialog. The sponsor and the player media
    screens share all of it; only the name of the owner field differs. */
module MediaGrouping {
  import opened Collections
  import opened Listing

  datatype DocumentKind = Certificate | Award
  datatype FileKind = Video | Photo

  datatype MediaDocument = MediaDocument(id: string, userId: string, kind: DocumentKind, createdAt: string)
  datatype MediaFile = MediaFile(id: string, userId: string, kind: FileKind, createdAt: string)

  /** One table row: a user with their documents and files, and the two
      counters the fold keeps beside the lists. */
  datatype Bucket = Bucket(
    ownerId: string,
    documents: seq<MediaDocument>,
    media: seq<MediaFile>,
    totalDocuments: nat,
    totalMedia: nat)

  predicate CountersAgree(b: Bucket) {
    b.totalDocuments == |b.documents| && b.totalMedia == |b.media|
  }

  /** The `userId` of each document. */
  function DocumentOwners(docs: seq<MediaDocument>): (r: seq<string>)
    ensures |r| == |docs|
    ensures forall k :: 0 <= k < |docs| ==> r[k] == docs[k].userId
  {
    seq(|docs|, k requires 0 <= k < |docs| => docs[k].userId)
  }

  /** The `userId` of each media file. */
  function FileOwners(files: seq<MediaFile>): (r: seq<string>)
    ensures |r| == |files|
    ensures forall k :: 0 <= k < |files| ==> r[k] == files[k].userId
  {
    seq(|files|, k requires 0 <= k < |files| => files[k].userId)
  }

  /** The users in the order the fold first meets them: documents are
      scanned before media files. */
  function Owners(docs: seq<MediaDocument>, files: seq<MediaFile>): seq<string> {
    Distinct(DocumentOwners(docs) + FileOwners(files))
  }

  /** The documents of `user`, in input order. */
  function DocumentsOf(docs: seq<MediaDocument>, user: string): seq<MediaDocument> {
    if docs == [] then []
    else
      var d := docs[|docs| - 1];
      DocumentsOf(docs[..|docs| - 1], user) + (if d.userId == user then [d] else [])
  }

  /** The media files of `user`, in input order. */
  function FilesOf(files: seq<MediaFile>, user: string): seq<MediaFile> {
    if files == [] then []
    else
      var f := files[|files| - 1];
      FilesOf(files[..|files| - 1], user) + (if f.userId == user then [f] else [])
  }

  /** The bucket of `user`: their documents and files in input order. */
  function BucketFor(docs: seq<MediaDocument>, files: seq<MediaFile>, user: string): (b: Bucket)
    ensures b.ownerId == user && CountersAgree(b)
  {
    var ds := DocumentsOf(docs, user);
    var fs := FilesOf(files, user);
    Bucket(user, ds, fs, |ds|, |fs|)
  }

  function BucketsFor(docs: seq<MediaDocument>, files: seq<MediaFile>, users: seq<string>): (g: seq<Bucket>)
    ensures |g| == |users|
    ensures forall k :: 0 <= k < |users| ==> g[k] == BucketFor(docs, files, users[k])
  {
    if users == [] then []
    else [BucketFor(docs, files, users[0])] + BucketsFor(docs, files, users[1..])
  }

  /** The table rows the fold produces: `Array.from(map.values())`. */
  function Grouped(docs: seq<MediaDocument>, files: seq<MediaFile>): seq<Bucket> {
    BucketsFor(docs, files, Owners(docs, files))
  }

  lemma DocumentsOfSnoc(docs: seq<MediaDocument>, d: MediaDocument, user: string)
    ensures DocumentsOf(docs + [d], user) ==
      DocumentsOf(docs, user) + (if d.userId == user then [d] else [])
  {
    assert (docs + [d])[..|docs|] == docs;
  }

  lemma FilesOfSnoc(files: seq<MediaFile>, f: MediaFile, user: string)
    ensures FilesOf(files + [f], user) ==
      FilesOf(files, user) + (if f.userId == user then [f] else [])
  {
    assert (files + [f])[..|files|] == files;
  }

  /** A user who owns none of the items has no documents and no files. */
  lemma NothingOfNewcomer(docs: seq<MediaDocument>, files: seq<MediaFile>, user: string)
    requires user !in Owners(docs, files)
    ensures DocumentsOf(docs, user) == [] && FilesOf(files, user) == []
  {
    var all := DocumentOwners(docs) + FileOwners(files);
    forall k | 0 <= k < |docs| ensures docs[k].userId != user {
      assert all[k] == docs[k].userId;
    }
    forall k | 0 <= k < |files| ensures files[k].userId != user {
      assert all[|docs| + k] == files[k].userId;
    }
    DocumentsOfIsFilter(docs, user);
    FilesOfIsFilter(files, user);
    FilterNone(docs, (x: MediaDocument) => x.userId == user);
    FilterNone(files, (x: MediaFile) => x.userId == user);
  }

  /** `DocumentsOf` is `docs.filter(d => d.userId === user)`. */
  lemma {:induction false} DocumentsOfIsFilter(docs: seq<MediaDocument>, user: string)
    ensures DocumentsOf(docs, user) == Filter(docs, (x: MediaDocument) => x.userId == user)
  {
    if docs != [] {
      var init := docs[..|docs| - 1];
      var d := docs[|docs| - 1];
      assert docs == init + [d];
      DocumentsOfIsFilter(init, user);
      FilterAppend(init, [d], (x: MediaDocument) => x.userId == user);
    }
  }

  /** `FilesOf` is `files.filter(f => f.userId === user)`. */
  lemma {:induction false} FilesOfIsFilter(files: seq<MediaFile>, user: string)
    ensures FilesOf(files, user) == Filter(files, (x: MediaFile) => x.userId == user)
  {
    if files != [] {
      var init := files[..|files| - 1];
      var f := files[|files| - 1];
      assert files == init + [f];
      FilesOfIsFilter(init, user);
      FilterAppend(init, [f], (x: MediaFile) => x.userId == user);
    }
  }

  /** The fold's `Map` after the items `docs` and `files` have been
      processed: each user met so far, with their bucket. */
  function Table(docs: seq<MediaDocument>, files: seq<MediaFile>): (t: map<string, Bucket>)
  {
    map u | u in Owners(docs, files) :: BucketFor(docs, files, u)
  }

  /** The bucket of a user, created empty on first sight. */
  function Fetch(table: map<string, Bucket>, user: string): Bucket {
    if user in table then table[user] else Bucket(user, [], [], 0, 0)
  }

  function AddDocument(table: map<string, Bucket>, d: MediaDocument): map<string, Bucket> {
    var b := Fetch(table, d.userId);
    table[d.userId := b.(documents := b.documents + [d], totalDocuments := b.totalDocuments + 1)]
  }

  function AddFile(table: map<string, Bucket>, f: MediaFile): map<string, Bucket> {
    var b := Fetch(table, f.userId);
    table[f.userId := b.(media := b.media + [f], totalMedia := b.totalMedia + 1)]
  }

  /** A document extends the key order exactly when its user is new. */
  lemma DocumentOwnersStep(docs: seq<MediaDocument>, d: MediaDocument)
    ensures Owners(docs + [d], []) ==
      if d.userId in Owners(docs, []) then Owners(docs, []) else Owners(docs, []) + [d.userId]
  {
    var all := DocumentOwners(docs) + FileOwners([]);
    assert DocumentOwners(docs + [d]) + FileOwners([]) == all + [d.userId];
    DistinctSnoc(all, d.userId);
  }

  /** One document step, `push(doc)` and `totalDocuments++` on its user's
      bucket, keeps the `Map` equal to the table of the items seen. */
  lemma DocumentStep(docs: seq<MediaDocument>, d: MediaDocument)
    ensures Table(docs + [d], []) == AddDocument(Table(docs, []), d)
  {
    DocumentOwnersStep(docs, d);
    var t := AddDocument(Table(docs, []), d);
    var t' := Table(docs + [d], []);
    assert t.Keys == t'.Keys;
    forall v | v in t ensures t[v] == t'[v] {
      DocumentStepAt(docs, d, v);
    }
  }

  lemma DocumentStepAt(docs: seq<MediaDocument>, d: MediaDocument, v: string)
    requires v in AddDocument(Table(docs, []), d)
    ensures v in Table(docs + [d], [])
    ensures AddDocument(Table(docs, []), d)[v] == Table(docs + [d], [])[v]
  {
    DocumentOwnersStep(docs, d);
    if v == d.userId {
      DocumentStepOwn(docs, d);
    } else {
      DocumentsOfSnoc(docs, d, v);
      assert DocumentsOf(docs + [d], v) == DocumentsOf(docs, v);
    }
  }

  /** The bucket of the document's own user gains exactly that document. */
  lemma DocumentStepOwn(docs: seq<MediaDocument>, d: MediaDocument)
    ensures Fetch(Table(docs, []), d.userId).(
        documents := Fetch(Table(docs, []), d.userId).documents + [d],
        totalDocuments := Fetch(Table(docs, []), d.userId).totalDocuments + 1)
      == BucketFor(docs + [d], [], d.userId)
  {
    var u := d.userId;
    DocumentsOfSnoc(docs, d, u);
    if u !in Owners(docs, []) {
      NothingOfNewcomer(docs, [], u);
    }
  }

  /** A media file extends the key order exactly when its user is new. */
  lemma FileOwnersStep(docs: seq<MediaDocument>, files: seq<MediaFile>, f: MediaFile)
    ensures Owners(docs, files + [f]) ==
      if f.userId in Owners(docs, files) then Owners(docs, files) else Owners(docs, files) + [f.userId]
  {
    var all := DocumentOwners(docs) + FileOwners(files);
    assert DocumentOwners(docs) + FileOwners(files + [f]) == all + [f.userId];
    DistinctSnoc(all, f.userId);
  }

  /** One media step, `push(media)` and `totalMedia++` on its user's
      bucket, keeps the `Map` equal to the table of the items seen. */
  lemma FileStep(docs: seq<MediaDocument>, files: seq<MediaFile>, f: MediaFile)
    ensures Table(docs, files + [f]) == AddFile(Table(docs, files), f)
  {
    FileOwnersStep(docs, files, f);
    var t := AddFile(Table(docs, files), f);
    var t' := Table(docs, files + [f]);
    assert t.Keys == t'.Keys;
    forall v | v in t ensures t[v] == t'[v] {
      FileStepAt(docs, files, f, v);
    }
  }

  lemma FileStepAt(docs: seq<MediaDocument>, files: seq<MediaFile>, f: MediaFile, v: string)
    requires v in AddFile(Table(docs, files), f)
    ensures v in Table(docs, files + [f])
    ensures AddFile(Table(docs, files), f)[v] == Table(docs, files + [f])[v]
  {
    FileOwnersStep(docs, files, f);
    if v == f.userId {
      FileStepOwn(docs, files, f);
    } else {
      FilesOfSnoc(files, f, v);
      assert FilesOf(files + [f], v) == FilesOf(files, v);
    }
  }

  /** The bucket of the file's own user gains exactly that file. */
  lemma FileStepOwn(docs: seq<MediaDocument>, files: seq<MediaFile>, f: MediaFile)
    ensures Fetch(Table(docs, files), f.userId).(
        media := Fetch(Table(docs, files), f.userId).media + [f],
        totalMedia := Fetch(Table(docs, files), f.userId).totalMedia + 1)
      == BucketFor(docs, files + [f], f.userId)
  {
    var u := f.userId;
    FilesOfSnoc(files, f, u);
    if u !in Owners(docs, files) {
      NothingOfNewcomer(docs, files, u);
    }
  }

  /** The loop over the documents keeps the `Map` and its key order equal
      to the table and the owners of the documents seen. */
  lemma DocumentLoopStep(docs: seq<MediaDocument>, i: nat, order: seq<string>, table: map<string, Bucket>)
    requires i < |docs|
    requires order == Owners(docs[..i], []) && table == Table(docs[..i], [])
    ensures Owners(docs[..i + 1], []) == if docs[i].userId in table then order else order + [docs[i].userId]
    ensures Table(docs[..i + 1], []) == AddDocument(table, docs[i])
  {
    assert docs[..i + 1] == docs[..i] + [docs[i]];
    DocumentOwnersStep(docs[..i], docs[i]);
    DocumentStep(docs[..i], docs[i]);
  }

  /** The loop over the media files does the same for the files seen. */
  lemma FileLoopStep(docs: seq<MediaDocument>, files: seq<MediaFile>, j: nat, order: seq<string>, table: map<string, Bucket>)
    requires j < |files|
    requires order == Owners(docs, files[..j]) && table == Table(docs, files[..j])
    ensures Owners(docs, files[..j + 1]) == if files[j].userId in table then order else order + [files[j].userId]
    ensures Table(docs, files[..j + 1]) == AddFile(table, files[j])
  {
    assert files[..j + 1] == files[..j] + [files[j]];
    FileOwnersStep(docs, files[..j], files[j]);
    FileStep(docs, files[..j], files[j]);
  }

  /** The `forEach` callback over the documents: create the bucket on
      first sight of the user, then push the document and count it. */
  method PushDocument(table: map<string, Bucket>, order: seq<string>, d: MediaDocument)
    returns (table': map<string, Bucket>, order': seq<string>)
    ensures table' == AddDocument(table, d)
    ensures order' == if d.userId in table then order else order + [d.userId]
  {
    table', order' := table, order;
    if d.userId !in table' {
      table' := table'[d.userId := Bucket(d.userId, [], [], 0, 0)];
      order' := order' + [d.userId];
    }
    var b := table'[d.userId];
    table' := table'[d.userId := b.(documents := b.documents + [d], totalDocuments := b.totalDocuments + 1)];
  }

  /** The `forEach` callback over the media files. */
  method PushFile(table: map<string, Bucket>, order: seq<string>, f: MediaFile)
    returns (table': map<string, Bucket>, order': seq<string>)
    ensures table' == AddFile(table, f)
    ensures order' == if f.userId in table then order else order + [f.userId]
  {
    table', order' := table, order;
    if f.userId !in table' {
      table' := table'[f.userId := Bucket(f.userId, [], [], 0, 0)];
      order' := order' + [f.userId];
    }
    var b := table'[f.userId];
    table' := table'[f.userId := b.(media := b.media + [f], totalMedia := b.totalMedia + 1)];
  }

  /** The fold of the fetch handler: a `Map` from user id to bucket, filled
      from the documents and then from the media files; the rows are the
      map's values in insertion order. */
  method GroupByUser(docs: seq<MediaDocument>, files: seq<MediaFile>) returns (buckets: seq<Bucket>)
    ensures buckets == Grouped(docs, files)
  {
    var order: seq<string> := [];
    var table: map<string, Bucket> := map[];
    var i := 0;
    while i < |docs|
      invariant 0 <= i <= |docs|
      invariant order == Owners(docs[..i], [])
      invariant table == Table(docs[..i], [])
    {
      DocumentLoopStep(docs, i, order, table);
      table, order := PushDocument(table, order, docs[i]);
      i := i + 1;
    }
    assert docs[..i] == docs;
    var j := 0;
    while j < |files|
      invariant 0 <= j <= |files|
      invariant order == Owners(docs, files[..j])
      invariant table == Table(docs, files[..j])
    {
      FileLoopStep(docs, files, j, order, table);
      table, order := PushFile(table, order, files[j]);
      j := j + 1;
    }
    assert files[..j] == files;
    buckets := seq(|order|, k requires 0 <= k < |order| => table[order[k]]);
  }

  /** The rows are one per user, in order of first appearance, documents
      before media files; no user has two rows. */
  lemma GroupedOwners(docs: seq<MediaDocument>, files: seq<MediaFile>)
    ensures |Grouped(docs, files)| == |Owners(docs, files)|
    ensures forall k :: 0 <= k < |Grouped(docs, files)| ==> Grouped(docs, files)[k].ownerId == Owners(docs, files)[k]
    ensures forall i, j :: 0 <= i < j < |Grouped(docs, files)| ==> Grouped(docs, files)[i].ownerId != Grouped(docs, files)[j].ownerId
    ensures |Grouped(docs, files)| == |set u | u in DocumentOwners(docs) + FileOwners(files)|
  {
    DistinctCardinality(DocumentOwners(docs) + FileOwners(files));
  }

  /** Every row's counters are the lengths of its lists. */
  lemma GroupedCountersAgree(docs: seq<MediaDocument>, files: seq<MediaFile>)
    ensures forall k :: 0 <= k < |Grouped(docs, files)| ==> CountersAgree(Grouped(docs, files)[k])
  {
  }

  /** A document is in exactly one row: the row of its user. The same
      holds of a media file. */
  lemma Placement(docs: seq<MediaDocument>, files: seq<MediaFile>)
    ensures forall d :: d in docs ==> exists k :: 0 <= k < |Grouped(docs, files)| && Grouped(docs, files)[k].ownerId == d.userId
    ensures forall d: MediaDocument, k :: 0 <= k < |Grouped(docs, files)| ==>
      (d in Grouped(docs, files)[k].documents <==> d in docs && Grouped(docs, files)[k].ownerId == d.userId)
    ensures forall f :: f in files ==> exists k :: 0 <= k < |Grouped(docs, files)| && Grouped(docs, files)[k].ownerId == f.userId
    ensures forall f: MediaFile, k :: 0 <= k < |Grouped(docs, files)| ==>
      (f in Grouped(docs, files)[k].media <==> f in files && Grouped(docs, files)[k].ownerId == f.userId)
  {
    forall d | d in docs ensures exists k :: 0 <= k < |Grouped(docs, files)| && Grouped(docs, files)[k].ownerId == d.userId {
      DocumentHasRow(docs, files, d);
    }
    forall f | f in files ensures exists k :: 0 <= k < |Grouped(docs, files)| && Grouped(docs, files)[k].ownerId == f.userId {
      FileHasRow(docs, files, f);
    }
    forall k | 0 <= k < |Grouped(docs, files)|
      ensures forall d :: d in Grouped(docs, files)[k].documents <==> d in docs && Grouped(docs, files)[k].ownerId == d.userId
    {
      DocumentsOfIsFilter(docs, Owners(docs, files)[k]);
    }
    forall k | 0 <= k < |Grouped(docs, files)|
      ensures forall f :: f in Grouped(docs, files)[k].media <==> f in files && Grouped(docs, files)[k].ownerId == f.userId
    {
      FilesOfIsFilter(files, Owners(docs, files)[k]);
    }
  }

  lemma DocumentHasRow(docs: seq<MediaDocument>, files: seq<MediaFile>, d: MediaDocument)
    requires d in docs
    ensures exists k :: 0 <= k < |Grouped(docs, files)| && Grouped(docs, files)[k].ownerId == d.userId
  {
    var owners := Owners(docs, files);
    var all := DocumentOwners(docs) + FileOwners(files);
    var i :| 0 <= i < |docs| && docs[i] == d;
    assert all[i] == d.userId;
    assert d.userId in owners;
    var k :| 0 <= k < |owners| && owners[k] == d.userId;
    assert Grouped(docs, files)[k].ownerId == d.userId;
  }

  lemma FileHasRow(docs: seq<MediaDocument>, files: seq<MediaFile>, f: MediaFile)
    requires f in files
    ensures exists k :: 0 <= k < |Grouped(docs, files)| && Grouped(docs, files)[k].ownerId == f.userId
  {
    var owners := Owners(docs, files);
    var all := DocumentOwners(docs) + FileOwners(files);
    var i :| 0 <= i < |files| && files[i] == f;
    assert all[|docs| + i] == f.userId;
    assert f.userId in owners;
    var k :| 0 <= k < |owners| && owners[k] == f.userId;
    assert Grouped(docs, files)[k].ownerId == f.userId;
  }

  /** Each row keeps its user's items in input order, each as often as it
      occurs in the input. */
  lemma RowsKeepOrder(docs: seq<MediaDocument>, files: seq<MediaFile>, k: nat)
    requires k < |Grouped(docs, files)|
    ensures IsSubsequence(Grouped(docs, files)[k].documents, docs)
    ensures IsSubsequence(Grouped(docs, files)[k].media, files)
    ensures forall d: MediaDocument :: d.userId == Grouped(docs, files)[k].ownerId ==>
      multiset(Grouped(docs, files)[k].documents)[d] == multiset(docs)[d]
    ensures forall f: MediaFile :: f.userId == Grouped(docs, files)[k].ownerId ==>
      multiset(Grouped(docs, files)[k].media)[f] == multiset(files)[f]
  {
    var u := Owners(docs, files)[k];
    DocumentsOfIsFilter(docs, u);
    FilesOfIsFilter(files, u);
    FilterIsSubsequence(docs, (x: MediaDocument) => x.userId == u);
    FilterIsSubsequence(files, (x: MediaFile) => x.userId == u);
    forall d: MediaDocument | d.userId == u ensures multiset(Grouped(docs, files)[k].documents)[d] == multiset(docs)[d] {
      FilterCounts(docs, (x: MediaDocument) => x.userId == u, d);
    }
    forall f: MediaFile | f.userId == u ensures multiset(Grouped(docs, files)[k].media)[f] == multiset(files)[f] {
      FilterCounts(files, (x: MediaFile) => x.userId == u, f);
    }
  }

  /** The document counters of a list of rows, summed. */
  function DocumentsTotal(g: seq<Bucket>): nat {
    if g == [] then 0 else g[0].totalDocuments + DocumentsTotal(g[1..])
  }

  /** The media counters of a list of rows, summed. */
  function MediaTotal(g: seq<Bucket>): nat {
    if g == [] then 0 else g[0].totalMedia + MediaTotal(g[1..])
  }

  lemma {:induction false} DocumentsTotalOfNone(files: seq<MediaFile>, users: seq<string>)
    ensures DocumentsTotal(BucketsFor([], files, users)) == 0
  {
    if users != [] {
      DocumentsTotalOfNone(files, users[1..]);
      assert BucketsFor([], files, users)[1..] == BucketsFor([], files, users[1..]);
    }
  }

  lemma {:induction false} DocumentsTotalSnoc(docs: seq<MediaDocument>, d: MediaDocument, files: seq<MediaFile>, users: seq<string>)
    requires NoDuplicates(users)
    ensures DocumentsTotal(BucketsFor(docs + [d], files, users))
      == DocumentsTotal(BucketsFor(docs, files, users)) + (if d.userId in users then 1 else 0)
  {
    if users != [] {
      var rest := users[1..];
      assert NoDuplicates(rest) by {
        forall i, j | 0 <= i < j < |rest| ensures rest[i] != rest[j] {
          assert rest[i] == users[i + 1] && rest[j] == users[j + 1];
        }
      }
      DocumentsTotalSnoc(docs, d, files, rest);
      DocumentsOfSnoc(docs, d, users[0]);
      assert BucketsFor(docs + [d], files, users)[1..] == BucketsFor(docs + [d], files, rest);
      assert BucketsFor(docs, files, users)[1..] == BucketsFor(docs, files, rest);
      if users[0] == d.userId {
        forall i | 0 <= i < |rest| ensures rest[i] != d.userId {
          assert rest[i] == users[i + 1];
        }
      } else {
        assert d.userId in users <==> d.userId in rest;
      }
    }
  }

  /** Summed over users who include every document's owner, just once
      each, the document counters count every document once. */
  lemma {:induction false} DocumentsTotalAll(docs: seq<MediaDocument>, files: seq<MediaFile>, users: seq<string>)
    requires NoDuplicates(users)
    requires forall k :: 0 <= k < |docs| ==> docs[k].userId in users
    ensures DocumentsTotal(BucketsFor(docs, files, users)) == |docs|
  {
    if docs == [] {
      DocumentsTotalOfNone(files, users);
    } else {
      var init := docs[..|docs| - 1];
      var d := docs[|docs| - 1];
      assert docs == init + [d];
      DocumentsTotalAll(init, files, users);
      DocumentsTotalSnoc(init, d, files, users);
    }
  }

  lemma {:induction false} MediaTotalOfNone(docs: seq<MediaDocument>, users: seq<string>)
    ensures MediaTotal(BucketsFor(docs, [], users)) == 0
  {
    if users != [] {
      MediaTotalOfNone(docs, users[1..]);
      assert BucketsFor(docs, [], users)[1..] == BucketsFor(docs, [], users[1..]);
    }
  }

  lemma {:induction false} MediaTotalSnoc(docs: seq<MediaDocument>, files: seq<MediaFile>, f: MediaFile, users: seq<string>)
    requires NoDuplicates(users)
    ensures MediaTotal(BucketsFor(docs, files + [f], users))
      == MediaTotal(BucketsFor(docs, files, users)) + (if f.userId in users then 1 else 0)
  {
    if users != [] {
      var rest := users[1..];
      assert NoDuplicates(rest) by {
        forall i, j | 0 <= i < j < |rest| ensures rest[i] != rest[j] {
          assert rest[i] == users[i + 1] && rest[j] == users[j + 1];
        }
      }
      MediaTotalSnoc(docs, files, f, rest);
      FilesOfSnoc(files, f, users[0]);
      assert BucketsFor(docs, files + [f], users)[1..] == BucketsFor(docs, files + [f], rest);
      assert BucketsFor(docs, files, users)[1..] == BucketsFor(docs, files, rest);
      if users[0] == f.userId {
        forall i | 0 <= i < |rest| ensures rest[i] != f.userId {
          assert rest[i] == users[i + 1];
        }
      } else {
        assert f.userId in users <==> f.userId in rest;
      }
    }
  }

  lemma {:induction false} MediaTotalAll(docs: seq<MediaDocument>, files: seq<MediaFile>, users: seq<string>)
    requires NoDuplicates(users)
    requires forall k :: 0 <= k < |files| ==> files[k].userId in users
    ensures MediaTotal(BucketsFor(docs, files, users)) == |files|
  {
    if files == [] {
      MediaTotalOfNone(docs, users);
    } else {
      var init := files[..|files| - 1];
      var f := files[|files| - 1];
      assert files == init + [f];
      MediaTotalAll(docs, init, users);
      MediaTotalSnoc(docs, init, f, users);
    }
  }

  /** Nothing is lost or duplicated: the rows' counters add up to the
      number of documents and the number of media files fetched. */
  lemma GroupedTotals(docs: seq<MediaDocument>, files: seq<MediaFile>)
    ensures DocumentsTotal(Grouped(docs, files)) == |docs|
    ensures MediaTotal(Grouped(docs, files)) == |files|
  {
    var all := DocumentOwners(docs) + FileOwners(files);
    forall k | 0 <= k < |docs| ensures docs[k].userId in Owners(docs, files) {
      assert all[k] == docs[k].userId;
    }
    forall k | 0 <= k < |files| ensures files[k].userId in Owners(docs, files) {
      assert all[|docs| + k] == files[k].userId;
    }
    DocumentsTotalAll(docs, files, Owners(docs, files));
    MediaTotalAll(docs, files, Owners(docs, files));
  }

  /** `getMediaCount(media, type)`. */
  function MediaCount(media: seq<MediaFile>, kind: FileKind): nat {
    |Filter(media, (f: MediaFile) => f.kind == kind)|
  }

  /** `getDocumentCount(documents, type)`. */
  function DocumentCount(docs: seq<MediaDocument>, kind: DocumentKind): nat {
    |Filter(docs, (d: MediaDocument) => d.kind == kind)|
  }

  /** Every media file is a video or a photo, every document a certificate
      or an award, so the two counts of a row add up to its counter. */
  lemma CountsAddUp(b: Bucket)
    requires CountersAgree(b)
    ensures MediaCount(b.media, Video) + MediaCount(b.media, Photo) == b.totalMedia
    ensures DocumentCount(b.documents, Certificate) + DocumentCount(b.documents, Award) == b.totalDocuments
  {
    FilterPartition(b.media, (f: MediaFile) => f.kind == Video, (f: MediaFile) => f.kind == Photo);
    FilterPartition(b.documents, (d: MediaDocument) => d.kind == Certificate, (d: MediaDocument) => d.kind == Award);
  }

  /** The completeness of a row, from its two counters. */
  datatype Completeness = Completed | Partial | Pending

  function StatusOf(b: Bucket): (c: Completeness)
    ensures c == Completed <==> b.totalMedia > 0 && b.totalDocuments > 0
    ensures c == Partial <==> (b.totalMedia > 0) != (b.totalDocuments > 0)
    ensures c == Pending <==> b.totalMedia == 0 && b.totalDocuments == 0
  {
    var hasMedia := b.totalMedia > 0;
    var hasDocuments := b.totalDocuments > 0;
    if hasMedia && hasDocuments then Completed
    else if hasMedia || hasDocuments then Partial
    else Pending
  }

  /** The badge colour of each completeness. */
  function StatusTone(c: Completeness): (t: Tone)
    ensures t == Green <==> c == Completed
    ensures t == Yellow <==> c == Partial
    ensures t == Red <==> c == Pending
  {
    match c
    case Completed => Green
    case Partial => Yellow
    case Pending => Red
  }

  /** A row of the grouping owns at least one item, so it is never Pending. */
  lemma GroupedNeverPending(docs: seq<MediaDocument>, files: seq<MediaFile>)
    ensures forall k :: 0 <= k < |Grouped(docs, files)| ==> StatusOf(Grouped(docs, files)[k]) != Pending
  {
    var g := Grouped(docs, files);
    var owners := Owners(docs, files);
    forall k | 0 <= k < |g| ensures g[k].totalDocuments > 0 || g[k].totalMedia > 0 {
      assert g[k] == BucketFor(docs, files, owners[k]);
      OwnerHasItem(docs, files, owners[k]);
    }
  }

  /** A user met by the fold owns a document or a media file. */
  lemma OwnerHasItem(docs: seq<MediaDocument>, files: seq<MediaFile>, u: string)
    requires u in Owners(docs, files)
    ensures |DocumentsOf(docs, u)| > 0 || |FilesOf(files, u)| > 0
  {
    var docOwners, fileOwners := DocumentOwners(docs), FileOwners(files);
    assert u in docOwners + fileOwners;
    if u in docOwners {
      var i :| 0 <= i < |docs| && docOwners[i] == u;
      DocumentsOfIsFilter(docs, u);
      assert docs[i] in DocumentsOf(docs, u);
    } else {
      var i :| 0 <= i < |files| && fileOwners[i] == u;
      FilesOfIsFilter(files, u);
      assert files[i] in FilesOf(files, u);
    }
  }

  /** Which items the dialog of a row lists. */
  datatype DialogKind = Videos | Photos | Awards | Certificates

  datatype DialogItem = DocumentItem(document: MediaDocument) | FileItem(file: MediaFile)

  /** The state of the item dialog of a media screen. */
  datatype Dialog = Dialog(isOpen: bool, kind: DialogKind, ownerId: string, items: seq<DialogItem>, title: string)

  /** The dialog as it is before it is first opened and after it is closed. */
  function ClosedDialog(): (m: Dialog)
    ensures !m.isOpen && m.items == []
    ensures m.ownerId == "" && m.kind == Videos && m.title == ""
  {
    Dialog(false, Videos, "", [], "")
  }

  /** The dialog title: a distinct heading for each kind. */
  function Title(kind: DialogKind): (r: string)
    ensures r == "Videos" <==> kind == Videos
    ensures r == "Photos" <==> kind == Photos
    ensures r == "Awards" <==> kind == Awards
    ensures r == "Certificates" <==> kind == Certificates
  {
    match kind
    case Videos => "Videos"
    case Photos => "Photos"
    case Awards => "Awards"
    case Certificates => "Certificates"
  }

  /** Whether `item` belongs in the dialog of `kind` for row `b`. */
  predicate Listed(kind: DialogKind, b: Bucket, item: DialogItem) {
    match kind
    case Videos => item.FileItem? && item.file in b.media && item.file.kind == Video
    case Photos => item.FileItem? && item.file in b.media && item.file.kind == Photo
    case Awards => item.DocumentItem? && item.document in b.documents && item.document.kind == Award
    case Certificates => item.DocumentItem? && item.document in b.documents && item.document.kind == Certificate
  }

  /** How many items the dialog of `kind` lists: the count shown in the table. */
  function KindCount(kind: DialogKind, b: Bucket): nat {
    match kind
    case Videos => MediaCount(b.media, Video)
    case Photos => MediaCount(b.media, Photo)
    case Awards => DocumentCount(b.documents, Award)
    case Certificates => DocumentCount(b.documents, Certificate)
  }

  function FileItems(fs: seq<MediaFile>): (r: seq<DialogItem>)
    ensures |r| == |fs|
    ensures forall item :: item in r <==> item.FileItem? && item.file in fs
  {
    if fs == [] then [] else [FileItem(fs[0])] + FileItems(fs[1..])
  }

  function DocumentItems(ds: seq<MediaDocument>): (r: seq<DialogItem>)
    ensures |r| == |ds|
    ensures forall item :: item in r <==> item.DocumentItem? && item.document in ds
  {
    if ds == [] then [] else [DocumentItem(ds[0])] + DocumentItems(ds[1..])
  }

  /** The media files a dialog lists, in the order listed. */
  function ItemFiles(items: seq<DialogItem>): seq<MediaFile> {
    if items == [] then []
    else (if items[0].FileItem? then [items[0].file] else []) + ItemFiles(items[1..])
  }

  /** The documents a dialog lists, in the order listed. */
  function ItemDocuments(items: seq<DialogItem>): seq<MediaDocument> {
    if items == [] then []
    else (if items[0].DocumentItem? then [items[0].document] else []) + ItemDocuments(items[1..])
  }

  lemma {:induction false} ItemFilesOfFileItems(fs: seq<MediaFile>)
    ensures ItemFiles(FileItems(fs)) == fs
    ensures ItemDocuments(FileItems(fs)) == []
  {
    if fs != [] {
      var rest := FileItems(fs[1..]);
      ItemFilesOfFileItems(fs[1..]);
      var items := [FileItem(fs[0])] + rest;
      assert FileItems(fs) == items;
      assert items[0] == FileItem(fs[0]) && items[1..] == rest;
      assert ItemFiles(items) == [fs[0]] + ItemFiles(rest);
      assert ItemDocuments(items) == ItemDocuments(rest);
    }
  }

  lemma {:induction false} ItemDocumentsOfDocumentItems(ds: seq<MediaDocument>)
    ensures ItemDocuments(DocumentItems(ds)) == ds
    ensures ItemFiles(DocumentItems(ds)) == []
  {
    if ds != [] {
      var rest := DocumentItems(ds[1..]);
      ItemDocumentsOfDocumentItems(ds[1..]);
      var items := [DocumentItem(ds[0])] + rest;
      assert DocumentItems(ds) == items;
      assert items[0] == DocumentItem(ds[0]) && items[1..] == rest;
      assert ItemDocuments(items) == [ds[0]] + ItemDocuments(rest);
      assert ItemFiles(items) == ItemFiles(rest);
    }
  }

  /** `openModal(type, id, row)`: an open dialog listing exactly the row's
      items of the chosen kind, as many as the table's count says, in the
      order the row holds them. */
  function OpenDialog(kind: DialogKind, ownerId: string, b: Bucket): (m: Dialog)
    ensures m.isOpen && m.kind == kind && m.ownerId == ownerId && m.title == Title(kind)
    ensures forall item :: item in m.items <==> Listed(kind, b, item)
    ensures |m.items| == KindCount(kind, b)
    ensures (kind == Videos || kind == Photos) ==>
      ItemDocuments(m.items) == [] && IsSubsequence(ItemFiles(m.items), b.media)
    ensures (kind == Awards || kind == Certificates) ==>
      ItemFiles(m.items) == [] && IsSubsequence(ItemDocuments(m.items), b.documents)
  {
    match kind
    case Videos =>
      var fs := Filter(b.media, (f: MediaFile) => f.kind == Video);
      ItemFilesOfFileItems(fs);
      FilterIsSubsequence(b.media, (f: MediaFile) => f.kind == Video);
      Dialog(true, kind, ownerId, FileItems(fs), Title(kind))
    case Photos =>
      var fs := Filter(b.media, (f: MediaFile) => f.kind == Photo);
      ItemFilesOfFileItems(fs);
      FilterIsSubsequence(b.media, (f: MediaFile) => f.kind == Photo);
      Dialog(true, kind, ownerId, FileItems(fs), Title(kind))
    case Awards =>
      var ds := Filter(b.documents, (d: MediaDocument) => d.kind == Award);
      ItemDocumentsOfDocumentItems(ds);
      FilterIsSubsequence(b.documents, (d: MediaDocument) => d.kind == Award);
      Dialog(true, kind, ownerId, DocumentItems(ds), Title(kind))
    case Certificates =>
      var ds := Filter(b.documents, (d: MediaDocument) => d.kind == Certificate);
      ItemDocumentsOfDocumentItems(ds);
      FilterIsSubsequence(b.documents, (d: MediaDocument) => d.kind == Certificate);
      Dialog(true, kind, ownerId, DocumentItems(ds), Title(kind))
  }

  /** The dialog of a grouped row lists exactly that user's fetched items
      of the chosen kind. */
  lemma DialogOfGroupedRow(docs: seq<MediaDocument>, files: seq<MediaFile>, k: nat, kind: DialogKind)
    requires k < |Grouped(docs, files)|
    ensures forall f: MediaFile ::
      FileItem(f) in OpenDialog(kind, Grouped(docs, files)[k].ownerId, Grouped(docs, files)[k]).items <==>
      f in files && f.userId == Grouped(docs, files)[k].ownerId
      && ((kind == Videos && f.kind == Video) || (kind == Photos && f.kind == Photo))
    ensures forall d: MediaDocument ::
      DocumentItem(d) in OpenDialog(kind, Grouped(docs, files)[k].ownerId, Grouped(docs, files)[k]).items <==>
      d in docs && d.userId == Grouped(docs, files)[k].ownerId
      && ((kind == Awards && d.kind == Award) || (kind == Certificates && d.kind == Certificate))
  {
    Placement(docs, files);
  }

  /** `[...row.media, ...row.documents].some(item => month of item is m)`. */
  predicate HasItemFrom(b: Bucket, month: string, monthOf: string -> string) {
    (exists f :: f in b.media && monthOf(f.createdAt) == month)
    || (exists d :: d in b.documents && monthOf(d.createdAt) == month)
  }

  /** A grouped row has an item from a month exactly when its user has a
      fetched file or document from that month. */
  lemma MonthOfGroupedRow(docs: seq<MediaDocument>, files: seq<MediaFile>, k: nat, month: string, monthOf: string -> string)
    requires k < |Grouped(docs, files)|
    ensures HasItemFrom(Grouped(docs, files)[k], month, monthOf) <==>
      (exists f :: f in files && f.userId == Grouped(docs, files)[k].ownerId && monthOf(f.createdAt) == month)
      || (exists d :: d in docs && d.userId == Grouped(docs, files)[k].ownerId && monthOf(d.createdAt) == month)
  {
    Placement(docs, files);
  }
}
