/**
 * Learning content: `GET /api/admin/content` (list with optional filters),
 * `POST /api/admin/content` (upload a file, then record it) and
 * `POST /api/admin/deleteContent` (delete the record, then the file).
 *
 * The listing and upload routes report errors with the auth-aware status
 * rule; the delete route uses plain `error.status || 500`.
 */
module Content {
  import opened Common
  import opened Text
  import opened Errors
  import opened Records
  import opened Auth

  /** `Query.search("title", search)` when `search` is non-empty, else nothing. */
  function TitlePart(search: Option<string>): seq<Query>
  {
    PushedIf(Truthy(search), Search("title", OrElse(search, "")))
  }

  /** `Query.equal("type", type)` when `type` is non-empty, else nothing. */
  function TypePart(kind: Option<string>): seq<Query>
  {
    PushedIf(Truthy(kind), Equal("type", Text(OrElse(kind, ""))))
  }

  /** `Query.equal("yearOfStudy", year)`, the year as given, when it is non-empty, else nothing. */
  function YearPart(year: Option<string>): seq<Query>
  {
    PushedIf(Truthy(year), Equal("yearOfStudy", Text(OrElse(year, ""))))
  }

  /** `Query.equal("program", program)` when `program` is non-empty, else nothing. */
  function ProgramPart(program: Option<string>): seq<Query>
  {
    PushedIf(Truthy(program), Equal("program", Text(OrElse(program, ""))))
  }

  /** The queries every listing starts with: newest first, at most 50. */
  const ListingBase: seq<Query> := [OrderDesc("$createdAt"), Limit(Some(50))]

  /** The listing's query list: the fixed start, then one filter per non-empty parameter, in this order. */
  function Listing(search: Option<string>, kind: Option<string>, year: Option<string>, program: Option<string>)
    : seq<Query>
  {
    ListingBase + TitlePart(search) + TypePart(kind) + YearPart(year) + ProgramPart(program)
  }

  /** `GET`: the query list is built by pushing the optional filters, in order, onto the fixed start. */
  method ContentQueries(search: Option<string>, kind: Option<string>, year: Option<string>, program: Option<string>)
    returns (queries: seq<Query>)
    ensures queries == Listing(search, kind, year, program)
  {
    queries := ListingBase;
    queries := PushWhen(queries, Truthy(search), Search("title", OrElse(search, "")));
    queries := PushWhen(queries, Truthy(kind), Equal("type", Text(OrElse(kind, ""))));
    queries := PushWhen(queries, Truthy(year), Equal("yearOfStudy", Text(OrElse(year, ""))));
    queries := PushWhen(queries, Truthy(program), Equal("program", Text(OrElse(program, ""))));
  }

  /** The listing starts newest first and capped at 50, and holds nothing but the four optional filters after that. */
  lemma ListingShape(search: Option<string>, kind: Option<string>, year: Option<string>, program: Option<string>)
    ensures var q := Listing(search, kind, year, program);
      && |q| >= 2 && q[0] == OrderDesc("$createdAt") && q[1] == Limit(Some(50))
      && |q| == 2 + |TitlePart(search)| + |TypePart(kind)| + |YearPart(year)| + |ProgramPart(program)|
  {
    var q := Listing(search, kind, year, program);
    assert q[..2] == ListingBase;
  }

  /** Of the listing queries, only `TitlePart(search)` filters on `title`. */
  lemma TitleFilter(search: Option<string>, kind: Option<string>, year: Option<string>, program: Option<string>)
    ensures FiltersOn(Listing(search, kind, year, program), "title") == TitlePart(search)
  {
    FourPushesFilters(ListingBase,
      Truthy(search), Search("title", OrElse(search, "")),
      Truthy(kind), Equal("type", Text(OrElse(kind, ""))),
      Truthy(year), Equal("yearOfStudy", Text(OrElse(year, ""))),
      Truthy(program), Equal("program", Text(OrElse(program, ""))),
      "title", 1);
  }

  /** Of the listing queries, only `TypePart(kind)` filters on `type`. */
  lemma TypeFilter(search: Option<string>, kind: Option<string>, year: Option<string>, program: Option<string>)
    ensures FiltersOn(Listing(search, kind, year, program), "type") == TypePart(kind)
  {
    FourPushesFilters(ListingBase,
      Truthy(search), Search("title", OrElse(search, "")),
      Truthy(kind), Equal("type", Text(OrElse(kind, ""))),
      Truthy(year), Equal("yearOfStudy", Text(OrElse(year, ""))),
      Truthy(program), Equal("program", Text(OrElse(program, ""))),
      "type", 2);
  }

  /** Of the listing queries, only `YearPart(year)` filters on `yearOfStudy`. */
  lemma YearFilter(search: Option<string>, kind: Option<string>, year: Option<string>, program: Option<string>)
    ensures FiltersOn(Listing(search, kind, year, program), "yearOfStudy") == YearPart(year)
  {
    FourPushesFilters(ListingBase,
      Truthy(search), Search("title", OrElse(search, "")),
      Truthy(kind), Equal("type", Text(OrElse(kind, ""))),
      Truthy(year), Equal("yearOfStudy", Text(OrElse(year, ""))),
      Truthy(program), Equal("program", Text(OrElse(program, ""))),
      "yearOfStudy", 3);
  }

  /** Of the listing queries, only `ProgramPart(program)` filters on `program`. */
  lemma ProgramFilter(search: Option<string>, kind: Option<string>, year: Option<string>, program: Option<string>)
    ensures FiltersOn(Listing(search, kind, year, program), "program") == ProgramPart(program)
  {
    FourPushesFilters(ListingBase,
      Truthy(search), Search("title", OrElse(search, "")),
      Truthy(kind), Equal("type", Text(OrElse(kind, ""))),
      Truthy(year), Equal("yearOfStudy", Text(OrElse(year, ""))),
      Truthy(program), Equal("program", Text(OrElse(program, ""))),
      "program", 4);
  }

  /** Every query after the first two filters on exactly one of the four attributes. */
  lemma ListingOnlyFilters(search: Option<string>, kind: Option<string>, year: Option<string>, program: Option<string>)
    ensures var q := Listing(search, kind, year, program);
      |q| == 2 + |FiltersOn(q, "title")| + |FiltersOn(q, "type")| + |FiltersOn(q, "yearOfStudy")|
               + |FiltersOn(q, "program")|
  {
    ListingShape(search, kind, year, program);
    TitleFilter(search, kind, year, program);
    TypeFilter(search, kind, year, program);
    YearFilter(search, kind, year, program);
    ProgramFilter(search, kind, year, program);
  }

  /** `yearOfStudy.toLowerCase().replace('_', '')`: lower case, first underscore dropped. */
  function NormaliseYear(y: string): (r: string)
    ensures forall i :: 0 <= i < |r| ==> !('A' <= r[i] <= 'Z')
    ensures '_' !in y ==> |r| == |y|
  {
    var l := Lower(y);
    assert forall i :: 0 <= i < |l| ==> !('A' <= l[i] <= 'Z');
    assert '_' !in y ==> '_' !in l by {
      if '_' in l {
        var i :| 0 <= i < |l| && l[i] == '_';
        assert y[i] == '_';
      }
    }
    RemoveFirst(l, '_')
  }

  /**
   * The first underscore splits the value: the text before it and the text after
   * it are lower-cased and joined (`YEAR_1` is stored as `year1`).
   */
  lemma NormaliseYearSplit(x: string, z: string)
    requires '_' !in x
    ensures NormaliseYear(x + "_" + z) == Lower(x) + Lower(z)
  {
    var y := x + "_" + z;
    var l := Lower(y);
    forall j | 0 <= j < |x|
      ensures l[j] != '_'
    {
      assert y[j] == x[j];
    }
    assert l[|x|] == '_';
    assert IndexOf(l, '_') == |x|;
    assert l[..|x|] == Lower(x);
    assert l[|x| + 1..] == Lower(z);
  }

  lemma {:induction false} CountLower(s: string)
    ensures Count(Lower(s), '_') == Count(s, '_')
    decreases |s|
  {
    if s != [] {
      assert Lower(s)[1..] == Lower(s[1..]);
      CountLower(s[1..]);
    }
  }

  /** Only the first underscore goes: a value with several keeps all the others. */
  lemma NormaliseYearDropsOneUnderscore(y: string)
    requires '_' in y
    ensures Count(NormaliseYear(y), '_') == Count(y, '_') - 1
    ensures |NormaliseYear(y)| == |y| - 1
  {
    CountLower(y);
    var i :| 0 <= i < |y| && y[i] == '_';
    assert Lower(y)[i] == '_';
  }

  /**
   * A value is stored unchanged exactly when it has no upper-case letter and no
   * underscore; for any other value, a listing filter on the same text
   * (passed verbatim) does not equal the stored one.
   */
  lemma NormaliseYearFixed(y: string)
    ensures NormaliseYear(y) == y <==> forall i :: 0 <= i < |y| ==> y[i] != '_' && !('A' <= y[i] <= 'Z')
  {
    if '_' in y {
      NormaliseYearDropsOneUnderscore(y);
    } else {
      if Lower(y) == y {
        forall i | 0 <= i < |y|
          ensures !('A' <= y[i] <= 'Z')
        {
          assert Lower(y)[i] == LowerChar(y[i]);
        }
      }
      if forall i :: 0 <= i < |y| ==> y[i] != '_' && !('A' <= y[i] <= 'Z') {
        assert Lower(y) == y;
      }
      assert '_' !in Lower(y) by {
        forall i | 0 <= i < |y|
          ensures Lower(y)[i] != '_'
        {
          assert y[i] != '_';
        }
      }
    }
  }

  /** Ids of the files in the bucket. */
  function FileIds(files: seq<StoredFile>): set<string>
  {
    set f | f in files :: f.id
  }

  /** Every content record points at a file that is in the bucket. */
  predicate FilesPresent(contents: seq<ContentItem>, files: seq<StoredFile>)
  {
    forall c :: c in contents ==> c.storageFileId in FileIds(files)
  }

  /**
   * `POST`: 400 unless title, type, year, program and a file are all present;
   * then the file is uploaded and only afterwards the record created. The
   * record stores the normalised year, `subject || null`, the description as
   * sent (absent stays absent) and the uploaded file's id. A failed create
   * leaves the uploaded file in the bucket, referenced by no record.
   */
  method CreateContent(contents: Collection<ContentItem>, files: Collection<StoredFile>, auth: Result<User, Error>,
                       title: Option<string>, description: Option<string>, kind: Option<string>,
                       yearOfStudy: Option<string>, program: Option<string>, subject: Option<string>,
                       file: Option<string>, fileId: string, docId: string, now: Millis,
                       uploadFault: Option<Error>, createFault: Option<Error>)
    returns (r: Reply<ContentItem>)
    modifies contents, files
    ensures auth.Failure? ==>
      r == FailAuthAware(auth.error) && contents.docs == old(contents.docs) && files.docs == old(files.docs)
    ensures auth.Success? && !(Truthy(title) && Truthy(kind) && Truthy(yearOfStudy) && Truthy(program) && file.Some?) ==>
      r == Refused(400, "Missing required fields")
      && contents.docs == old(contents.docs) && files.docs == old(files.docs)
    ensures auth.Success? && Truthy(title) && Truthy(kind) && Truthy(yearOfStudy) && Truthy(program) && file.Some? ==>
      if uploadFault.Some? then
        r == FailAuthAware(uploadFault.value) && contents.docs == old(contents.docs) && files.docs == old(files.docs)
      else
        files.docs == old(files.docs) + [StoredFile(fileId, file.value)]
        && if createFault.Some? then
          r == FailAuthAware(createFault.value) && contents.docs == old(contents.docs)
        else
          && r.Ok? && contents.docs == old(contents.docs) + [r.body]
          && r.body.id == docId && r.body.title == title.value && r.body.description == description
          && r.body.kind == kind.value && r.body.yearOfStudy == NormaliseYear(yearOfStudy.value)
          && r.body.program == program.value
          && r.body.subject == (if Truthy(subject) then subject else None)
          && r.body.storageFileId == fileId && r.body.createdAt == now && r.body.updatedAt == now
    ensures r.Ok? && old(FilesPresent(contents.docs, files.docs)) ==> FilesPresent(contents.docs, files.docs)
  {
    if auth.Failure? {
      return FailAuthAware(auth.error);
    }
    if !Truthy(title) || !Truthy(kind) || !Truthy(yearOfStudy) || !Truthy(program) || file.None? {
      return Refused(400, "Missing required fields");
    }
    if uploadFault.Some? {
      return FailAuthAware(uploadFault.value);
    }
    files.docs := files.docs + [StoredFile(fileId, file.value)];
    if createFault.Some? {
      return FailAuthAware(createFault.value);
    }
    var item := ContentItem(docId, title.value, description, kind.value, NormaliseYear(yearOfStudy.value),
                            program.value, if Truthy(subject) then subject else None, fileId, now, now);
    contents.docs := contents.docs + [item];
    r := Ok(item);
  }

  /** The bucket after deleting the file `fid`; an unknown id leaves it as it is. */
  function DropFile(files: seq<StoredFile>, fid: string): (r: seq<StoredFile>)
    ensures forall f :: f in files && f.id != fid ==> f in r
    ensures forall f :: f in r ==> f in files
    ensures fid !in FileIds(files) ==> r == files
    ensures fid in FileIds(files) ==> |r| == |files| - 1
    ensures UniqueBy(files, FileId) ==> fid !in FileIds(r)
  {
    match FirstWith(files, FileId, fid)
    case None => files
    case Some(k) =>
      var r := RemoveAt(files, k);
      assert forall j :: 0 <= j < |files| && j != k ==> files[j] in r by {
        forall j | 0 <= j < |files| && j != k
          ensures files[j] in r
        {
          if j < k { assert r[j] == files[j]; } else { assert r[j - 1] == files[j]; }
        }
      }
      r
  }

  /**
   * `deleteContent`: 400 unless both ids are present; the record is deleted
   * first, and if that fails the reply is the error and
   * the file is not touched; an unknown id is the store's not-found error,
   * which carries no status and so is answered with 500. The file deletion that follows may fail; that
   * failure is swallowed and the reply is still success.
   */
  method DeleteContent(contents: Collection<ContentItem>, files: Collection<StoredFile>, auth: Result<User, Error>,
                       contentId: Option<string>, storageFileId: Option<string>,
                       deleteFault: Option<Error>, fileFault: Option<Error>)
    returns (r: Reply<bool>)
    modifies contents, files
    ensures auth.Failure? ==> r == Fail(auth.error) && contents.docs == old(contents.docs) && files.docs == old(files.docs)
    ensures auth.Success? && !(Truthy(contentId) && Truthy(storageFileId)) ==>
      r == Refused(400, "Missing required IDs") && contents.docs == old(contents.docs) && files.docs == old(files.docs)
    ensures auth.Success? && Truthy(contentId) && Truthy(storageFileId) ==>
      match (if deleteFault.Some? then deleteFault
             else if FirstWith(old(contents.docs), ContentId, contentId.value).None? then Some(DocumentNotFound)
             else None)
      case Some(e) =>
        r == Fail(e) && contents.docs == old(contents.docs) && files.docs == old(files.docs)
      case None =>
        && r == Ok(true)
        && contents.docs == RemoveAt(old(contents.docs), FirstWith(old(contents.docs), ContentId, contentId.value).value)
        && files.docs == (if fileFault.Some? then old(files.docs) else DropFile(old(files.docs), storageFileId.value))
    ensures auth.Success? && Truthy(contentId) && Truthy(storageFileId) && deleteFault.None?
            && FirstWith(old(contents.docs), ContentId, contentId.value).None? ==>
      r == Refused(500, DocumentNotFound.message)
  {
    if auth.Failure? {
      return Fail(auth.error);
    }
    if !Truthy(contentId) || !Truthy(storageFileId) {
      return Refused(400, "Missing required IDs");
    }
    if deleteFault.Some? {
      return Fail(deleteFault.value);
    }
    var k := FirstWith(contents.docs, ContentId, contentId.value);
    if k.None? {
      DocumentNotFoundStatuses();
      return Fail(DocumentNotFound);
    }
    contents.docs := RemoveAt(contents.docs, k.value);
    if fileFault.None? {
      files.docs := DropFile(files.docs, storageFileId.value);
    }
    r := Ok(true);
  }

  /**
   * Deleting a record together with the file it points at keeps every remaining
   * record's file in the bucket, provided no other record shares that file.
   */
  lemma DeleteKeepsFilesPresent(contents: seq<ContentItem>, files: seq<StoredFile>, k: nat)
    requires k < |contents|
    requires FilesPresent(contents, files)
    requires forall j :: 0 <= j < |contents| && j != k ==> contents[j].storageFileId != contents[k].storageFileId
    ensures FilesPresent(RemoveAt(contents, k), DropFile(files, contents[k].storageFileId))
  {
    var rest := RemoveAt(contents, k);
    var fid := contents[k].storageFileId;
    forall c | c in rest
      ensures c.storageFileId in FileIds(DropFile(files, fid))
    {
      var j :| 0 <= j < |rest| && rest[j] == c;
      var i := if j < k then j else j + 1;
      assert contents[i] == c;
      assert c.storageFileId != fid;
      var f :| f in files && f.id == c.storageFileId;
      assert f in DropFile(files, fid);
    }
  }

  /**
   * The route deletes whatever file id it is sent: a file id that belongs to
   * another record leaves that record pointing at a file that is gone.
   */
  lemma DeleteWithForeignFileId()
    ensures var a := ContentItem("a", "A", None, "PDF", "year1", "BSc", None, "fa", 0, 0);
            var b := ContentItem("b", "B", None, "PDF", "year1", "BSc", None, "fb", 0, 0);
            var files := [StoredFile("fa", "a.pdf"), StoredFile("fb", "b.pdf")];
            && FilesPresent([a, b], files)
            && !FilesPresent(RemoveAt([a, b], 0), DropFile(files, "fb"))
  {
    var a := ContentItem("a", "A", None, "PDF", "year1", "BSc", None, "fa", 0, 0);
    var b := ContentItem("b", "B", None, "PDF", "year1", "BSc", None, "fb", 0, 0);
    var files := [StoredFile("fa", "a.pdf"), StoredFile("fb", "b.pdf")];
    assert files[0].id == "fa" && files[1].id == "fb";
    assert "fa" in FileIds(files) && "fb" in FileIds(files);
    assert FirstWith(files, FileId, "fb") == Some(1);
    assert DropFile(files, "fb") == [StoredFile("fa", "a.pdf")];
    assert RemoveAt([a, b], 0) == [b];
    assert "fb" !in FileIds([StoredFile("fa", "a.pdf")]);
  }
}
