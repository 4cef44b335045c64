/**
 * The vector-store glue of class Chroma_db: loading the category folders into a four-column
 * document table, populating the chromadb collection "Articles" once and in batches, and
 * assembling the three-segment prompt from the documents a query retrieves.
 *
 * The embedding model and chromadb's nearest-neighbour ranking are opaque functions; the
 * directory tree is a map from directory path to its listing; uuid.uuid4() is a supply of
 * uuid hex strings, the k-th call giving uuid(k).
 */
module Chroma {
  import opened Common
  import opened Text
  import opened Batching

  type Vector = seq<real>

  /** The only property of the sentence-embedding model the code relies on: one vector per text. */
  ghost predicate OneVectorPerText(embed: seq<string> -> seq<Vector>)
  {
    forall texts :: |embed(texts)| == |texts|
  }

  // ---------------------------------------------------------------------------------------
  // The directory tree and os.path.join

  datatype Platform = Posix | Windows

  datatype Entry = File(name: string, text: string) | Directory(name: string)

  /** Directory path to the entries os.listdir gives for it, in listing order. */
  type FileSystem = map<string, seq<Entry>>

  function Names(entries: seq<Entry>): seq<string>
  {
    seq(|entries|, i requires 0 <= i < |entries| => entries[i].name)
  }

  function Separator(platform: Platform): char
  {
    if platform == Windows then '\\' else '/'
  }

  /** os.path.join(dir, name) for a name that holds no separator (as os.listdir returns them). */
  function PathJoin(platform: Platform, dir: string, name: string): string
  {
    if dir == [] then name
    else if dir[|dir| - 1] == '/' || dir[|dir| - 1] == Separator(platform) then dir + name
    else dir + [Separator(platform)] + name
  }

  // ---------------------------------------------------------------------------------------
  // setup_document

  /** The list comprehension keeping the names that str.split(".") leaves in one piece. */
  function Categories(names: seq<string>): (kept: seq<string>)
    ensures forall x :: x in kept <==> x in names && '.' !in x
    ensures |kept| <= |names|
    decreases |names|
  {
    if names == [] then []
    else
      SplitSingleIff(names[0], '.');
      (if |Split(names[0], '.')| == 1 then [names[0]] else []) + Categories(names[1..])
  }

  /**
   * The filter keeps the listing order and keeps each listed name once: filtering a listing
   * is filtering its two halves and putting the results together.
   */
  lemma {:induction false} CategoriesAppend(a: seq<string>, b: seq<string>)
    ensures Categories(a + b) == Categories(a) + Categories(b)
    decreases |a|
  {
    if a == [] {
      assert a + b == b;
    } else {
      var head := if |Split(a[0], '.')| == 1 then [a[0]] else [];
      assert (a + b)[0] == a[0] && (a + b)[1..] == a[1..] + b;
      CategoriesAppend(a[1..], b);
      calc {
        Categories(a + b);
        head + Categories(a[1..] + b);
        head + (Categories(a[1..]) + Categories(b));
        (head + Categories(a[1..])) + Categories(b);
        Categories(a) + Categories(b);
      }
    }
  }

  /** The 32 hex digits of uuid.uuid4().hex: version digit 4 and variant digit 8, 9, a or b. */
  predicate IsUuid4Hex(u: string)
  {
    |u| == 32 && IsLowerHex(u) && u[12] == '4' && u[16] in "89ab"
  }

  /** A uuid4() supply: the k-th call returns uuid(k). */
  ghost predicate UuidSource(uuid: nat -> string)
  {
    forall k :: IsUuid4Hex(uuid(k))
  }

  predicate IsDocumentId(id: string)
  {
    |id| == 24 && IsLowerHex(id) && id[12] == '4' && id[16] in "89ab"
  }

  /** uuid.uuid4().hex[:24]. */
  function DocumentId(u: string): (id: string)
    requires IsUuid4Hex(u)
    ensures IsDocumentId(id)
    ensures id + u[24..] == u
  {
    u[..24]
  }

  /** The first n calls of the supply give pairwise different ids. */
  predicate FreshIds(uuid: nat -> string, n: nat)
    requires UuidSource(uuid)
  {
    forall i, j :: 0 <= i < j < n ==> DocumentId(uuid(i)) != DocumentId(uuid(j))
  }

  /** The pandas DataFrame built from the dict {'id', 'class', 'title', 'content'}. */
  datatype Table = Table(id: seq<string>, category: seq<string>, title: seq<string>, content: seq<string>)
  {
    predicate WellFormed()
    {
      |id| == |category| && |id| == |title| && |id| == |content|
    }
  }

  const EmptyTable := Table([], [], [], [])

  /**
   * folder.split('\\')[1]: the second backslash-separated component of the folder path, between
   * its first backslash and the next one (or the end); IndexError when there is no backslash.
   */
  function CategoryOf(folder: string): (r: Result<string>)
    ensures r.Err? <==> '\\' !in folder
    ensures r.Err? ==> r == Err(IndexError(folder))
    ensures r.Ok? ==> '\\' !in r.value && '\\' in folder
    ensures r.Ok? ==> exists at :: SecondPieceAt(folder, '\\', r.value, at)
  {
    var parts := Split(folder, '\\');
    SplitSingleIff(folder, '\\');
    if |parts| < 2 then Err(IndexError(folder))
    else
      SplitSecond(folder, '\\');
      Ok(parts[1])
  }

  /** One pass of the inner loop: the row of entry e of folder appended to acc. */
  function AddFile(acc: Table, platform: Platform, folder: string, e: Entry, uuid: nat -> string): Result<Table>
    requires UuidSource(uuid)
  {
    match e
    case Directory(name) => Err(CannotRead(PathJoin(platform, folder, name)))
    case File(name, text) =>
      match CategoryOf(folder)
      case Err(err) => Err(err)
      case Ok(category) =>
        Ok(Table(acc.id + [DocumentId(uuid(|acc.id|))], acc.category + [category],
                 acc.title + [name], acc.content + [text]))
  }

  /** The inner loop over the listing of one category folder. */
  function AddFolder(acc: Table, platform: Platform, folder: string, entries: seq<Entry>,
                     uuid: nat -> string): Result<Table>
    requires UuidSource(uuid)
    decreases |entries|
  {
    if entries == [] then Ok(acc)
    else
      match AddFile(acc, platform, folder, entries[0], uuid)
      case Err(err) => Err(err)
      case Ok(next) => AddFolder(next, platform, folder, entries[1..], uuid)
  }

  /** The outer loop over the kept category names. */
  function AddCategories(acc: Table, fs: FileSystem, platform: Platform, base: string, cats: seq<string>,
                         uuid: nat -> string): Result<Table>
    requires UuidSource(uuid)
    decreases |cats|
  {
    if cats == [] then Ok(acc)
    else
      var folder := PathJoin(platform, base, cats[0]);
      if folder !in fs then Err(CannotList(folder))
      else
        match AddFolder(acc, platform, folder, fs[folder], uuid)
        case Err(err) => Err(err)
        case Ok(next) => AddCategories(next, fs, platform, base, cats[1..], uuid)
  }

  /** What setup_document returns, or the exception it raises. */
  function DocumentTable(fs: FileSystem, platform: Platform, base: string, uuid: nat -> string): Result<Table>
    requires UuidSource(uuid)
  {
    if base !in fs then Err(CannotList(base))
    else AddCategories(EmptyTable, fs, platform, base, Categories(Names(fs[base])), uuid)
  }

  /** setup_document: nested loops appending to the four columns. */
  method SetupDocument(fs: FileSystem, platform: Platform, base: string, uuid: nat -> string)
    returns (r: Result<Table>)
    requires UuidSource(uuid)
    ensures r == DocumentTable(fs, platform, base, uuid)
  {
    if base !in fs {
      return Err(CannotList(base));
    }
    var categoryNames := Categories(Names(fs[base]));
    var ids, classes, titles, contents := [], [], [], [];
    var i := 0;
    while i < |categoryNames|
      invariant 0 <= i <= |categoryNames|
      invariant |ids| == |classes| == |titles| == |contents|
      invariant DocumentTable(fs, platform, base, uuid)
                == AddCategories(Table(ids, classes, titles, contents), fs, platform, base, categoryNames[i..], uuid)
    {
      var folder := PathJoin(platform, base, categoryNames[i]);
      if folder !in fs {
        return Err(CannotList(folder));
      }
      var listing := fs[folder];
      ghost var start := Table(ids, classes, titles, contents);
      var j := 0;
      while j < |listing|
        invariant 0 <= j <= |listing|
        invariant |ids| == |classes| == |titles| == |contents|
        invariant AddFolder(start, platform, folder, listing, uuid)
                  == AddFolder(Table(ids, classes, titles, contents), platform, folder, listing[j..], uuid)
      {
        var unique := listing[j];
        var id := DocumentId(uuid(|ids|));
        if unique.Directory? {
          return Err(CannotRead(PathJoin(platform, folder, unique.name)));
        }
        var category := CategoryOf(folder);
        if category.Err? {
          return Err(category.error);
        }
        ids := ids + [id];
        classes := classes + [category.value];
        titles := titles + [unique.name];
        contents := contents + [unique.text];
        j := j + 1;
      }
      assert listing[j..] == [];
      i := i + 1;
    }
    assert categoryNames[i..] == [];
    return Ok(Table(ids, classes, titles, contents));
  }

  // ---------------------------------------------------------------------------------------
  // Properties of the document table

  /** The folder paired with each entry of its listing. */
  function Pairs(folder: string, entries: seq<Entry>): seq<(string, Entry)>
  {
    seq(|entries|, i requires 0 <= i < |entries| => (folder, entries[i]))
  }

  /** Every (folder, entry) pair the loops visit, in folder-then-file order. */
  function Listing(fs: FileSystem, platform: Platform, base: string, cats: seq<string>): seq<(string, Entry)>
    decreases |cats|
  {
    if cats == [] then []
    else
      var folder := PathJoin(platform, base, cats[0]);
      var here := if folder in fs then fs[folder] else [];
      Pairs(folder, here) + Listing(fs, platform, base, cats[1..])
  }

  /** The number of rows setup_document produces when it succeeds. */
  function FileCount(fs: FileSystem, platform: Platform, base: string): nat
  {
    if base in fs then |Listing(fs, platform, base, Categories(Names(fs[base])))| else 0
  }

  /** The title column for the visited pairs: the file names. */
  function Titles(visited: seq<(string, Entry)>): seq<string>
  {
    seq(|visited|, j requires 0 <= j < |visited| => visited[j].1.name)
  }

  function TextOf(e: Entry): string
  {
    if e.File? then e.text else ""
  }

  /** The content column for the visited pairs: the file texts. */
  function Texts(visited: seq<(string, Entry)>): seq<string>
  {
    seq(|visited|, j requires 0 <= j < |visited| => TextOf(visited[j].1))
  }

  function ClassOf(folder: string): string
  {
    if CategoryOf(folder).Ok? then CategoryOf(folder).value else ""
  }

  /** The class column for the visited pairs: each folder's second backslash component. */
  function Classes(visited: seq<(string, Entry)>): seq<string>
  {
    seq(|visited|, j requires 0 <= j < |visited| => ClassOf(visited[j].0))
  }

  /** The ids of the first n uuids drawn, in drawing order. */
  function DrawnIds(uuid: nat -> string, n: nat): (ids: seq<string>)
    requires UuidSource(uuid)
    ensures |ids| == n
  {
    seq(n, j requires 0 <= j < n => DocumentId(uuid(j)))
  }

  /** Every visited entry is a file whose folder has a class. */
  predicate Readable(visited: seq<(string, Entry)>)
  {
    forall j :: 0 <= j < |visited| ==> visited[j].1.File? && CategoryOf(visited[j].0).Ok?
  }

  /** t is acc with one row appended per visited pair, ids continuing the drawing order. */
  predicate Built(t: Table, acc: Table, visited: seq<(string, Entry)>, uuid: nat -> string)
    requires UuidSource(uuid)
  {
    Readable(visited)
    && t == Table(DrawnIds(uuid, |acc.id| + |visited|), acc.category + Classes(visited),
                  acc.title + Titles(visited), acc.content + Texts(visited))
  }

  lemma ColumnsAppend(a: seq<(string, Entry)>, b: seq<(string, Entry)>)
    ensures Titles(a + b) == Titles(a) + Titles(b)
    ensures Texts(a + b) == Texts(a) + Texts(b)
    ensures Classes(a + b) == Classes(a) + Classes(b)
  {
    assert Titles(a + b) == Titles(a) + Titles(b);
    assert Texts(a + b) == Texts(a) + Texts(b);
    assert Classes(a + b) == Classes(a) + Classes(b);
  }

  /** Appending the rows of a and then those of b appends the rows of a + b. */
  lemma BuiltConcat(t: Table, mid: Table, acc: Table, a: seq<(string, Entry)>, b: seq<(string, Entry)>,
                    uuid: nat -> string)
    requires UuidSource(uuid) && Built(mid, acc, a, uuid) && Built(t, mid, b, uuid)
    ensures Built(t, acc, a + b, uuid)
  {
    ColumnsAppend(a, b);
    assert |mid.id| == |acc.id| + |a|;
    assert (acc.category + Classes(a)) + Classes(b) == acc.category + (Classes(a) + Classes(b));
    assert (acc.title + Titles(a)) + Titles(b) == acc.title + (Titles(a) + Titles(b));
    assert (acc.content + Texts(a)) + Texts(b) == acc.content + (Texts(a) + Texts(b));
    assert Readable(a + b) by {
      forall j | 0 <= j < |a + b|
        ensures (a + b)[j].1.File? && CategoryOf((a + b)[j].0).Ok?
      {
        if j < |a| {
          assert (a + b)[j] == a[j];
        } else {
          assert (a + b)[j] == b[j - |a|];
        }
      }
    }
  }

  /** One pass of the inner loop appends the row of one file. */
  lemma AddFileBuilt(acc: Table, platform: Platform, folder: string, e: Entry, uuid: nat -> string)
    requires UuidSource(uuid) && acc.id == DrawnIds(uuid, |acc.id|)
    requires AddFile(acc, platform, folder, e, uuid).Ok?
    ensures Built(AddFile(acc, platform, folder, e, uuid).value, acc, [(folder, e)], uuid)
  {
    var one := [(folder, e)];
    assert Titles(one) == [e.name] && Texts(one) == [e.text] && Classes(one) == [CategoryOf(folder).value];
    assert DrawnIds(uuid, |acc.id| + 1) == acc.id + [DocumentId(uuid(|acc.id|))];
  }

  /** The inner loop appends one row per listed entry, each a file, in listing order. */
  lemma {:induction false} AddFolderBuilt(acc: Table, platform: Platform, folder: string, entries: seq<Entry>,
                                          uuid: nat -> string)
    requires UuidSource(uuid) && acc.id == DrawnIds(uuid, |acc.id|)
    requires AddFolder(acc, platform, folder, entries, uuid).Ok?
    ensures Built(AddFolder(acc, platform, folder, entries, uuid).value, acc, Pairs(folder, entries), uuid)
    decreases |entries|
  {
    if entries == [] {
      assert Titles([]) == [] && Texts([]) == [] && Classes([]) == [];
      assert acc.category + [] == acc.category && acc.title + [] == acc.title && acc.content + [] == acc.content;
    } else {
      var next := AddFile(acc, platform, folder, entries[0], uuid).value;
      AddFileBuilt(acc, platform, folder, entries[0], uuid);
      AddFolderBuilt(next, platform, folder, entries[1..], uuid);
      var t := AddFolder(next, platform, folder, entries[1..], uuid).value;
      BuiltConcat(t, next, acc, [(folder, entries[0])], Pairs(folder, entries[1..]), uuid);
      assert [(folder, entries[0])] + Pairs(folder, entries[1..]) == Pairs(folder, entries);
    }
  }

  /** The outer loop appends one row per visited (folder, file) pair, in folder-then-file order. */
  lemma {:induction false} AddCategoriesBuilt(acc: Table, fs: FileSystem, platform: Platform, base: string,
                                              cats: seq<string>, uuid: nat -> string)
    requires UuidSource(uuid) && acc.id == DrawnIds(uuid, |acc.id|)
    requires AddCategories(acc, fs, platform, base, cats, uuid).Ok?
    ensures Built(AddCategories(acc, fs, platform, base, cats, uuid).value, acc, Listing(fs, platform, base, cats), uuid)
    decreases |cats|
  {
    if cats == [] {
      assert Titles([]) == [] && Texts([]) == [] && Classes([]) == [];
      assert acc.category + [] == acc.category && acc.title + [] == acc.title && acc.content + [] == acc.content;
    } else {
      var folder := PathJoin(platform, base, cats[0]);
      var entries := fs[folder];
      var mid := AddFolder(acc, platform, folder, entries, uuid).value;
      AddFolderBuilt(acc, platform, folder, entries, uuid);
      AddCategoriesBuilt(mid, fs, platform, base, cats[1..], uuid);
      var t := AddCategories(mid, fs, platform, base, cats[1..], uuid).value;
      BuiltConcat(t, mid, acc, Pairs(folder, entries), Listing(fs, platform, base, cats[1..]), uuid);
    }
  }

  /**
   * setup_document's table: the four columns have equal length, one row per file of each kept
   * category folder in folder-then-file order, title the file name, content the file text,
   * class the folder's second backslash component, and row j's id drawn from the j-th uuid.
   */
  lemma DocumentTableRows(fs: FileSystem, platform: Platform, base: string, uuid: nat -> string)
    requires UuidSource(uuid)
    requires DocumentTable(fs, platform, base, uuid).Ok?
    ensures var t := DocumentTable(fs, platform, base, uuid).value;
      var visited := Listing(fs, platform, base, Categories(Names(fs[base])));
      t.WellFormed() && |t.id| == |visited| == FileCount(fs, platform, base)
      && (forall j :: 0 <= j < |t.id| ==> t.id[j] == DocumentId(uuid(j)) && IsDocumentId(t.id[j]))
      && forall j :: 0 <= j < |visited| ==>
           visited[j].1.File? && t.title[j] == visited[j].1.name && t.content[j] == visited[j].1.text
           && CategoryOf(visited[j].0) == Ok(t.category[j])
  {
    var cats := Categories(Names(fs[base]));
    assert DrawnIds(uuid, 0) == [];
    AddCategoriesBuilt(EmptyTable, fs, platform, base, cats, uuid);
    var t := AddCategories(EmptyTable, fs, platform, base, cats, uuid).value;
    var visited := Listing(fs, platform, base, cats);
    assert t == Table(DrawnIds(uuid, |visited|), Classes(visited), Titles(visited), Texts(visited));
    forall j | 0 <= j < |t.id|
      ensures t.id[j] == DocumentId(uuid(j)) && IsDocumentId(t.id[j])
    {
    }
    forall j | 0 <= j < |visited|
      ensures visited[j].1.File? && t.title[j] == visited[j].1.name && t.content[j] == visited[j].1.text
              && CategoryOf(visited[j].0) == Ok(t.category[j])
    {
      assert t.title[j] == Titles(visited)[j] && t.content[j] == Texts(visited)[j];
      assert t.category[j] == Classes(visited)[j];
    }
  }

  /** With fresh uuids, setup_document's ids are pairwise different. */
  lemma DocumentIdsDistinct(fs: FileSystem, platform: Platform, base: string, uuid: nat -> string)
    requires UuidSource(uuid) && FreshIds(uuid, FileCount(fs, platform, base))
    requires DocumentTable(fs, platform, base, uuid).Ok?
    ensures Distinct(DocumentTable(fs, platform, base, uuid).value.id)
  {
    DocumentTableRows(fs, platform, base, uuid);
  }

  /** On Windows a category folder "base\name" yields class name when base holds no backslash. */
  lemma WindowsCategory(base: string, name: string)
    requires base != [] && '\\' !in base && '\\' !in name && base[|base| - 1] != '/'
    ensures CategoryOf(PathJoin(Windows, base, name)) == Ok(name)
  {
    var folder := PathJoin(Windows, base, name);
    assert folder == Join([base, name], ['\\']);
    SplitJoin([base, name], '\\');
  }

  /**
   * On Windows, a base path with one backslash, such as C:\\data, gives every category folder the
   * class of the base's second component ("data"), not the folder's own name.
   */
  lemma {:induction false} WindowsNestedBaseCategory(drive: string, dir: string, name: string)
    requires '\\' !in drive && '\\' !in dir && '\\' !in name
    requires dir != [] && dir[|dir| - 1] != '/'
    ensures CategoryOf(PathJoin(Windows, drive + ['\\'] + dir, name)) == Ok(dir)
  {
    var base := drive + ['\\'] + dir;
    var folder := PathJoin(Windows, base, name);
    assert base[|base| - 1] == dir[|dir| - 1];
    assert folder == drive + ['\\'] + (dir + ['\\'] + name);
    SplitAfterSeparator(drive, '\\', dir + ['\\'] + name);
    SplitAfterSeparator(dir, '\\', name);
  }

  /** On a POSIX system the joined folder path has no backslash, so every file raises IndexError. */
  lemma PosixCategory(base: string, name: string)
    requires '\\' !in base && '\\' !in name
    ensures CategoryOf(PathJoin(Posix, base, name)) == Err(IndexError(PathJoin(Posix, base, name)))
  {
  }

  // ---------------------------------------------------------------------------------------
  // The chromadb collection and process_chroma

  /** What chromadb stores per id: the document text and its embedding. */
  datatype IndexEntry = IndexEntry(document: string, embedding: Vector)

  /** The entries one add(documents=, ids=, embeddings=) call inserts. */
  function Batch(ids: seq<string>, documents: seq<string>, embeddings: seq<Vector>): map<string, IndexEntry>
    requires |ids| == |documents| == |embeddings|
    decreases |ids|
  {
    if ids == [] then map[]
    else
      var last := |ids| - 1;
      Batch(ids[..last], documents[..last], embeddings[..last])[ids[last] := IndexEntry(documents[last], embeddings[last])]
  }

  lemma {:induction false} BatchKeys(ids: seq<string>, documents: seq<string>, embeddings: seq<Vector>)
    requires |ids| == |documents| == |embeddings|
    ensures Batch(ids, documents, embeddings).Keys == Elements(ids)
    decreases |ids|
  {
    if ids != [] {
      var last := |ids| - 1;
      BatchKeys(ids[..last], documents[..last], embeddings[..last]);
      assert ids == ids[..last] + [ids[last]];
      assert Elements(ids) == Elements(ids[..last]) + {ids[last]};
    }
  }

  lemma {:induction false} BatchValues(ids: seq<string>, documents: seq<string>, embeddings: seq<Vector>)
    requires |ids| == |documents| == |embeddings| && Distinct(ids)
    ensures forall j :: 0 <= j < |ids| ==>
      ids[j] in Batch(ids, documents, embeddings) && Batch(ids, documents, embeddings)[ids[j]] == IndexEntry(documents[j], embeddings[j])
    decreases |ids|
  {
    if ids != [] {
      var last := |ids| - 1;
      DistinctSlice(ids, 0, last);
      BatchValues(ids[..last], documents[..last], embeddings[..last]);
      forall j | 0 <= j < last
        ensures ids[j] in Batch(ids, documents, embeddings)
        ensures Batch(ids, documents, embeddings)[ids[j]] == IndexEntry(documents[j], embeddings[j])
      {
        assert ids[j] == ids[..last][j];
      }
    }
  }

  /** An add call stores each of its distinct ids with its own document and embedding. */
  lemma BatchEntries(ids: seq<string>, documents: seq<string>, embeddings: seq<Vector>)
    requires |ids| == |documents| == |embeddings| && Distinct(ids)
    ensures Batch(ids, documents, embeddings).Keys == Elements(ids)
    ensures |Batch(ids, documents, embeddings)| == |ids|
    ensures forall j :: 0 <= j < |ids| ==> Batch(ids, documents, embeddings)[ids[j]] == IndexEntry(documents[j], embeddings[j])
  {
    BatchKeys(ids, documents, embeddings);
    BatchValues(ids, documents, embeddings);
    DistinctCardinality(ids);
    assert |Batch(ids, documents, embeddings).Keys| == |ids|;
  }

  /** The persistent collection "Articles": its entries and the ids of every add call so far. */
  class Collection {
    var entries: map<string, IndexEntry>
    ghost var added: seq<seq<string>>

    constructor ()
      ensures entries == map[] && added == []
    {
      entries := map[];
      added := [];
    }

    function Count(): nat
      reads this
    {
      |entries|
    }

    /** collection.add: ids unique within the call and not yet stored, the three lists of one length. */
    method Add(documents: seq<string>, ids: seq<string>, embeddings: seq<Vector>)
      requires |documents| == |ids| == |embeddings|
      requires Distinct(ids)
      requires forall id :: id in ids ==> id !in entries
      modifies this
      ensures entries == old(entries) + Batch(ids, documents, embeddings)
      ensures entries.Keys == old(entries.Keys) + Elements(ids)
      ensures added == old(added) + [ids]
      ensures Count() == old(Count()) + |ids|
    {
      var batch := Batch(ids, documents, embeddings);
      BatchEntries(ids, documents, embeddings);
      assert entries.Keys !! batch.Keys;
      entries := entries + batch;
      added := added + [ids];
    }
  }

  lemma DistinctSlice(s: seq<string>, a: nat, b: nat)
    requires Distinct(s) && a <= b <= |s|
    ensures Distinct(s[a..b])
  {
    assert forall i :: 0 <= i < b - a ==> s[a..b][i] == s[a + i];
  }

  /** The entries population stores: batch by batch, each batch embedded together. */
  function Populated(ids: seq<string>, documents: seq<string>, embed: seq<string> -> seq<Vector>,
                     size: nat): map<string, IndexEntry>
    requires |ids| == |documents| && OneVectorPerText(embed) && size > 0
    decreases |ids|
  {
    if ids == [] then map[]
    else
      var k := Min(|ids|, size);
      Batch(ids[..k], documents[..k], embed(documents[..k])) + Populated(ids[k..], documents[k..], embed, size)
  }

  lemma {:induction false} PopulatedKeys(ids: seq<string>, documents: seq<string>,
                                         embed: seq<string> -> seq<Vector>, size: nat)
    requires |ids| == |documents| && OneVectorPerText(embed) && size > 0
    ensures Populated(ids, documents, embed, size).Keys == Elements(ids)
    decreases |ids|
  {
    if ids != [] {
      var k := Min(|ids|, size);
      PopulatedKeys(ids[k..], documents[k..], embed, size);
      BatchKeys(ids[..k], documents[..k], embed(documents[..k]));
      assert ids == ids[..k] + ids[k..];
      assert Elements(ids) == Elements(ids[..k]) + Elements(ids[k..]);
    }
  }

  lemma {:induction false} PopulatedDocuments(ids: seq<string>, documents: seq<string>,
                                              embed: seq<string> -> seq<Vector>, size: nat)
    requires |ids| == |documents| && Distinct(ids) && OneVectorPerText(embed) && size > 0
    ensures forall j :: 0 <= j < |ids| ==>
      ids[j] in Populated(ids, documents, embed, size) && Populated(ids, documents, embed, size)[ids[j]].document == documents[j]
    decreases |ids|
  {
    if ids != [] {
      var m := Populated(ids, documents, embed, size);
      var k := Min(|ids|, size);
      DistinctSlice(ids, 0, k);
      DistinctSlice(ids, k, |ids|);
      PopulatedDocuments(ids[k..], documents[k..], embed, size);
      PopulatedKeys(ids[k..], documents[k..], embed, size);
      BatchValues(ids[..k], documents[..k], embed(documents[..k]));
      var first := Batch(ids[..k], documents[..k], embed(documents[..k]));
      var rest := Populated(ids[k..], documents[k..], embed, size);
      assert m == first + rest;
      forall j | 0 <= j < |ids|
        ensures ids[j] in m && m[ids[j]].document == documents[j]
      {
        if j < k {
          NotInLater(ids, j, k);
          assert ids[j] == ids[..k][j] && documents[j] == documents[..k][j];
        } else {
          assert ids[j] == ids[k..][j - k] && documents[j] == documents[k..][j - k];
        }
      }
    }
  }

  /** Every id is stored once, with its own document. */
  lemma PopulatedEntries(ids: seq<string>, documents: seq<string>, embed: seq<string> -> seq<Vector>, size: nat)
    requires |ids| == |documents| && Distinct(ids) && OneVectorPerText(embed) && size > 0
    ensures Populated(ids, documents, embed, size).Keys == Elements(ids)
    ensures |Populated(ids, documents, embed, size)| == |ids|
    ensures forall j :: 0 <= j < |ids| ==> Populated(ids, documents, embed, size)[ids[j]].document == documents[j]
  {
    PopulatedKeys(ids, documents, embed, size);
    PopulatedDocuments(ids, documents, embed, size);
    DistinctCardinality(ids);
    assert |Populated(ids, documents, embed, size).Keys| == |ids|;
  }

  lemma NotInLater(ids: seq<string>, j: nat, k: nat)
    requires Distinct(ids) && j < k <= |ids|
    ensures ids[j] !in Elements(ids[k..])
  {
  }

  /** The ids of a batch are not among the ids stored before it. */
  lemma BatchIsFresh(ids: seq<string>, i: nat, end: nat)
    requires Distinct(ids) && i <= end <= |ids|
    ensures forall x :: x in ids[i..end] ==> x !in Elements(ids[..i])
  {
    forall x | x in ids[i..end]
      ensures x !in Elements(ids[..i])
    {
      var a :| i <= a < end && ids[a] == x;
    }
  }

  lemma UnionAssociative(a: map<string, IndexEntry>, b: map<string, IndexEntry>, c: map<string, IndexEntry>)
    ensures (a + b) + c == a + (b + c)
  {
  }

  /** One step of the batching loop: the batch starting at row i, and what is left after it. */
  lemma BatchStepPopulated(ids: seq<string>, documents: seq<string>, embed: seq<string> -> seq<Vector>,
                           size: nat, i: nat, end: nat)
    requires |ids| == |documents| && OneVectorPerText(embed) && size > 0
    requires i < |ids| && end == Min(i + size, |ids|)
    ensures Populated(ids[i..], documents[i..], embed, size)
            == Batch(ids[i..end], documents[i..end], embed(documents[i..end]))
               + Populated(ids[end..], documents[end..], embed, size)
  {
    var r, d := ids[i..], documents[i..];
    var k := Min(|r|, size);
    assert k == end - i;
    assert r[..k] == ids[i..end] && r[k..] == ids[end..];
    assert d[..k] == documents[i..end] && d[k..] == documents[end..];
  }

  /** After the batches for rows [0, done): what is stored and what is logged, against what remains. */
  ghost predicate Progress(table: Table, embed: seq<string> -> seq<Vector>, size: nat, done: nat,
                           entries: map<string, IndexEntry>, batches: seq<seq<string>>)
    requires table.WellFormed() && OneVectorPerText(embed) && size > 0 && done <= |table.id|
  {
    && Chunks(table.id, size) == batches + Chunks(table.id[done..], size)
    && entries.Keys == Elements(table.id[..done])
    && Populated(table.id, table.content, embed, size)
       == entries + Populated(table.id[done..], table.content[done..], embed, size)
  }

  /** The keys stored after the batch [i, end) are the ids of rows [0, end). */
  lemma KeysStep(ids: seq<string>, documents: seq<string>, embeddings: seq<Vector>, i: nat, end: nat,
                 keys: set<string>)
    requires i <= end <= |ids| && |documents| == |embeddings| == end - i
    requires keys == Elements(ids[..i])
    ensures keys + Batch(ids[i..end], documents, embeddings).Keys == Elements(ids[..end])
  {
    BatchKeys(ids[i..end], documents, embeddings);
    assert ids[..end] == ids[..i] + ids[i..end];
  }

  /** The stored map plus what remains to store is unchanged by storing one more batch. */
  lemma PopulatedStep(table: Table, embed: seq<string> -> seq<Vector>, size: nat, i: nat, end: nat,
                      entries: map<string, IndexEntry>)
    requires table.WellFormed() && OneVectorPerText(embed) && size > 0
    requires i < |table.id| && end == Min(i + size, |table.id|)
    requires Populated(table.id, table.content, embed, size)
             == entries + Populated(table.id[i..], table.content[i..], embed, size)
    ensures Populated(table.id, table.content, embed, size)
            == (entries + Batch(table.id[i..end], table.content[i..end], embed(table.content[i..end])))
               + Populated(table.id[end..], table.content[end..], embed, size)
  {
    BatchStepPopulated(table.id, table.content, embed, size, i, end);
    UnionAssociative(entries, Batch(table.id[i..end], table.content[i..end], embed(table.content[i..end])),
                     Populated(table.id[end..], table.content[end..], embed, size));
  }

  /** The batches logged so far plus the batches still to come are the chunks of all ids. */
  lemma ChunksStep(ids: seq<string>, size: nat, i: nat, end: nat, batches: seq<seq<string>>)
    requires size > 0 && i < |ids| && end == Min(i + size, |ids|)
    requires Chunks(ids, size) == batches + Chunks(ids[i..], size)
    ensures Chunks(ids, size) == (batches + [ids[i..end]]) + Chunks(ids[end..], size)
  {
    ChunksAfter(ids, size, i, end);
  }

  /** One add call moves the progress from row i to the end of its batch. */
  lemma ProgressStep(table: Table, embed: seq<string> -> seq<Vector>, size: nat, i: nat, end: nat,
                     entries: map<string, IndexEntry>, batches: seq<seq<string>>)
    requires table.WellFormed() && Distinct(table.id) && OneVectorPerText(embed) && size > 0
    requires i < |table.id| && end == Min(i + size, |table.id|)
    requires Progress(table, embed, size, i, entries, batches)
    ensures Distinct(table.id[i..end])
    ensures forall x :: x in table.id[i..end] ==> x !in entries
    ensures Progress(table, embed, size, end,
                     entries + Batch(table.id[i..end], table.content[i..end], embed(table.content[i..end])),
                     batches + [table.id[i..end]])
  {
    DistinctSlice(table.id, i, end);
    BatchIsFresh(table.id, i, end);
    KeysStep(table.id, table.content[i..end], embed(table.content[i..end]), i, end, entries.Keys);
    PopulatedStep(table, embed, size, i, end, entries);
    ChunksStep(table.id, size, i, end, batches);
  }

  /** One pass of the loop of process_chroma: add rows [i, end) to the collection as one batch. */
  method AddNextBatch(store: Collection, table: Table, embed: seq<string> -> seq<Vector>, size: nat,
                      i: nat, ghost batches: seq<seq<string>>) returns (end: nat)
    requires table.WellFormed() && Distinct(table.id) && OneVectorPerText(embed) && size > 0
    requires i < |table.id| && Progress(table, embed, size, i, store.entries, batches)
    modifies store
    ensures end == Min(i + size, |table.id|)
    ensures store.added == old(store.added) + [table.id[i..end]]
    ensures Progress(table, embed, size, end, store.entries, batches + [table.id[i..end]])
  {
    end := Min(i + size, |table.id|);
    var contentPart := table.content[i..end];
    var idPart := table.id[i..end];
    var vector := embed(contentPart);
    ProgressStep(table, embed, size, i, end, store.entries, batches);
    store.Add(contentPart, idPart, vector);
  }

  /** Once every row is stored, the collection holds the whole population and the log holds every chunk. */
  lemma ProgressDone(table: Table, embed: seq<string> -> seq<Vector>, size: nat,
                     entries: map<string, IndexEntry>, batches: seq<seq<string>>)
    requires table.WellFormed() && Distinct(table.id) && OneVectorPerText(embed) && size > 0
    requires Progress(table, embed, size, |table.id|, entries, batches)
    ensures batches == Chunks(table.id, size)
    ensures entries == Populated(table.id, table.content, embed, size)
    ensures |entries| == |table.id|
  {
    var n := |table.id|;
    assert table.id[n..] == [] && table.content[n..] == [];
    assert Populated(table.id[n..], table.content[n..], embed, size) == map[];
    assert entries + map[] == entries;
    assert Chunks(table.id[n..], size) == [];
    assert batches + [] == batches;
    PopulatedKeys(table.id, table.content, embed, size);
    DistinctCardinality(table.id);
  }

  lemma AppendAssociative<T>(a: seq<T>, b: seq<T>, c: seq<T>)
    ensures (a + b) + c == a + (b + c)
  {
  }

  /** The loop of process_chroma: add the rows in consecutive batches of size rows. */
  method AddInBatches(store: Collection, table: Table, embed: seq<string> -> seq<Vector>, size: nat)
    requires table.WellFormed() && Distinct(table.id) && OneVectorPerText(embed) && size > 0
    requires store.entries == map[]
    modifies store
    ensures store.added == old(store.added) + Chunks(table.id, size)
    ensures store.entries == Populated(table.id, table.content, embed, size)
    ensures store.Count() == |table.id|
  {
    var n := |table.id|;
    ghost var batches: seq<seq<string>> := [];
    ghost var done := 0;
    var i := 0;
    while i < n
      invariant 0 <= done <= n && done == Min(i, n)
      invariant store.added == old(store.added) + batches
      invariant Progress(table, embed, size, done, store.entries, batches)
    {
      var end := AddNextBatch(store, table, embed, size, i, batches);
      AppendAssociative(old(store.added), batches, [table.id[i..end]]);
      batches := batches + [table.id[i..end]];
      i := i + size;
      done := end;
    }
    ProgressDone(table, embed, size, store.entries, batches);
  }

  /**
   * process_chroma: when the collection is empty, add the document table in consecutive batches
   * of batchSize rows; when it already holds entries, do nothing.
   */
  method ProcessChroma(store: Collection, fs: FileSystem, platform: Platform, base: string,
                       uuid: nat -> string, embed: seq<string> -> seq<Vector>, batchSize: int)
    returns (outcome: Outcome)
    requires UuidSource(uuid) && OneVectorPerText(embed)
    requires FreshIds(uuid, FileCount(fs, platform, base))
    modifies store
    ensures old(store.Count()) != 0 ==>
      outcome == Pass && store.entries == old(store.entries) && store.added == old(store.added)
    ensures old(store.Count()) == 0 && DocumentTable(fs, platform, base, uuid).Err? ==>
      outcome == Fail(DocumentTable(fs, platform, base, uuid).error)
      && store.entries == old(store.entries) && store.added == old(store.added)
    ensures old(store.Count()) == 0 && DocumentTable(fs, platform, base, uuid).Ok? ==>
      var table := DocumentTable(fs, platform, base, uuid).value;
      (batchSize == 0 ==> outcome == Fail(ZeroStep)) && (batchSize != 0 ==> outcome == Pass)
      && (batchSize <= 0 ==> store.entries == old(store.entries) && store.added == old(store.added))
      && (batchSize > 0 ==>
            table.WellFormed() && Distinct(table.id)
            && store.added == old(store.added) + Chunks(table.id, batchSize)
            && store.entries == Populated(table.id, table.content, embed, batchSize)
            && store.Count() == |table.id|)
  {
    if store.Count() != 0 {
      return Pass;
    }
    var document := SetupDocument(fs, platform, base, uuid);
    if document.Err? {
      return Fail(document.error);
    }
    var table := document.value;
    DocumentTableRows(fs, platform, base, uuid);
    DocumentIdsDistinct(fs, platform, base, uuid);
    if batchSize == 0 {
      return Fail(ZeroStep);
    }
    if batchSize < 0 {
      // range(0, n, step) is empty for a negative step
      return Pass;
    }
    AddInBatches(store, table, embed, batchSize);
    return Pass;
  }

  // ---------------------------------------------------------------------------------------
  // ask_chromadb

  /** chromadb's query: one list of documents per query embedding. */
  ghost predicate OneResultPerQuery(search: (map<string, IndexEntry>, seq<Vector>, int) -> seq<seq<string>>)
  {
    forall entries, queries, k :: |search(entries, queries, k)| == |queries|
  }

  datatype Role = System | User

  datatype Message = Message(role: Role, content: string)

  const SystemInstruction := "Tu es un assistant intelligent. Utilise le contexte pour répondre précisément."
  const ContextLabel := "Contexte : "
  const QuestionLabel := "Question : "
  const NoContext := "No context found."

  /** "\n".join(retrieved_docs) if retrieved_docs else "No context found." */
  function Context(retrieved: seq<string>): (context: string)
    ensures retrieved == [] ==> context == NoContext
    ensures retrieved != [] ==> |context| == TotalLength(retrieved) + |retrieved| - 1
  {
    if retrieved != [] then
      JoinLength(retrieved, '\n');
      Join(retrieved, "\n")
    else NoContext
  }

  /** With documents free of newlines, the context splits back on "\n" into the retrieved documents. */
  lemma ContextRoundTrip(retrieved: seq<string>)
    requires retrieved != []
    requires forall i :: 0 <= i < |retrieved| ==> '\n' !in retrieved[i]
    ensures Split(Context(retrieved), '\n') == retrieved
  {
    SplitJoin(retrieved, '\n');
  }

  /**
   * Every retrieved document appears whole in the context, after the documents before it and one
   * newline for each of them, and a newline follows every document but the last; this holds for
   * documents that themselves contain newlines.
   */
  lemma ContextPlacement(retrieved: seq<string>, i: nat)
    requires i < |retrieved|
    ensures var start := TotalLength(retrieved[..i]) + i;
      start + |retrieved[i]| <= |Context(retrieved)|
      && Context(retrieved)[start..start + |retrieved[i]|] == retrieved[i]
      && (i < |retrieved| - 1 ==>
            start + |retrieved[i]| < |Context(retrieved)| && Context(retrieved)[start + |retrieved[i]|] == '\n')
  {
    JoinPlacement(retrieved, '\n', i);
  }

  /** The documents the query for userQuery retrieves: result['documents'][0]. */
  function Retrieved(entries: map<string, IndexEntry>, userQuery: string, nbContext: int,
                     embed: seq<string> -> seq<Vector>,
                     search: (map<string, IndexEntry>, seq<Vector>, int) -> seq<seq<string>>): seq<string>
    requires OneVectorPerText(embed) && OneResultPerQuery(search)
  {
    search(entries, embed([userQuery]), nbContext)[0]
  }

  /** ask_chromadb: the three-segment prompt built from what the collection retrieves. */
  function AskChromaDb(entries: map<string, IndexEntry>, userQuery: string, nbContext: int,
                       embed: seq<string> -> seq<Vector>,
                       search: (map<string, IndexEntry>, seq<Vector>, int) -> seq<seq<string>>): (prompt: seq<Message>)
    requires OneVectorPerText(embed) && OneResultPerQuery(search)
    ensures |prompt| == 3
    ensures prompt[0] == Message(System, SystemInstruction)
    ensures prompt[1] == Message(User, ContextLabel + Context(Retrieved(entries, userQuery, nbContext, embed, search)))
    ensures prompt[2] == Message(User, QuestionLabel + userQuery)
    ensures Retrieved(entries, userQuery, nbContext, embed, search) == [] ==>
              prompt[1].content == ContextLabel + NoContext
  {
    var queryEmbedding := embed([userQuery]);
    var result := search(entries, queryEmbedding, nbContext);
    var retrievedDocs := result[0];
    var context := Context(retrievedDocs);
    [Message(System, SystemInstruction),
     Message(User, ContextLabel + context),
     Message(User, QuestionLabel + userQuery)]
  }

  /** The prompt depends on the collection only through the answer to the single query it asks. */
  lemma {:induction false} AskDependsOnlyOnQuery(
    entries1: map<string, IndexEntry>, entries2: map<string, IndexEntry>, userQuery: string, nbContext: int,
    embed: seq<string> -> seq<Vector>,
    search1: (map<string, IndexEntry>, seq<Vector>, int) -> seq<seq<string>>,
    search2: (map<string, IndexEntry>, seq<Vector>, int) -> seq<seq<string>>)
    requires OneVectorPerText(embed) && OneResultPerQuery(search1) && OneResultPerQuery(search2)
    requires search1(entries1, embed([userQuery]), nbContext)[0] == search2(entries2, embed([userQuery]), nbContext)[0]
    ensures AskChromaDb(entries1, userQuery, nbContext, embed, search1)
            == AskChromaDb(entries2, userQuery, nbContext, embed, search2)
  {
  }
}
