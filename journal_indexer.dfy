/** `process_and_index_pdfs` and `main` of the medical journal indexer: cleaning the
    markdown of each converted PDF, turning the chunks of the text splitter into bulk index
    actions, counting the files that were indexed, and choosing between creating, recreating
    and appending to the index. PDF conversion, the splitter, the embedder and the
    Elasticsearch calls are parameters. */
module JournalIndexer {
  import opened Strings
  import opened PyValue
  import Searcher

  // ---------------------------------------------------------------- markdown cleaning

  /** A stripped line that opens or continues a table. */
  predicate StartsTable(line: string) {
    StartsWith(line, "|") || StartsWith(line, "+-")
  }

  /** `line.replace('-', '').strip() == ''`, which `HyphensOnlyMeans` shows is this. */
  predicate HyphensOnly(line: string) {
    forall i :: 0 <= i < |line| ==> line[i] == '-' || IsSpace(line[i])
  }

  /** One turn of the cleaning loop on a stripped line: whether it is kept, and the table flag
      afterwards. */
  function CleanStep(line: string, inTable: bool): (bool, bool) {
    if StartsTable(line) then (true, true)
    else
      var stillInTable := if inTable && !StartsTable(line) then false else inTable;
      if !stillInTable then (line != "" && !HyphensOnly(line), stillInTable)
      else (true, stillInTable)
  }

  /** The lines the cleaning loop keeps from `lines`, entered with the table flag `inTable`. */
  function CleanFrom(lines: seq<string>, inTable: bool): seq<string> {
    if lines == [] then []
    else
      var line := Strip(lines[0]);
      var (keep, next) := CleanStep(line, inTable);
      (if keep then [line] else []) + CleanFrom(lines[1..], next)
  }

  /** The body of the cleaning loop for one stripped line: whether it is appended, and the
      table flag afterwards. */
  method CleanLine(line: string, inTable: bool) returns (keep: bool, next: bool)
    ensures (keep, next) == CleanStep(line, inTable)
  {
    next := inTable;
    if StartsTable(line) {
      return true, true;
    } else if next && !StartsTable(line) {
      next := false;
    }
    if !next {
      keep := line != "" && !HyphensOnly(line);
    } else {
      keep := true;
    }
  }

  /** The cleaning loop over the converted document's markdown, joined back with newlines. */
  method CleanMarkdown(markdown: string) returns (cleaned: string)
    ensures cleaned == Join("\n", CleanFrom(Split(markdown, '\n'), false))
  {
    var cleanedLines := CleanLines(Split(markdown, '\n'));
    cleaned := Join("\n", cleanedLines);
  }

  /** The loop itself, over the lines of the markdown. */
  method CleanLines(lines: seq<string>) returns (cleanedLines: seq<string>)
    ensures cleanedLines == CleanFrom(lines, false)
  {
    cleanedLines := [];
    var inTable := false;
    var i := 0;
    while i < |lines|
      invariant 0 <= i <= |lines|
      invariant cleanedLines + CleanFrom(lines[i..], inTable) == CleanFrom(lines, false)
    {
      var line := Strip(lines[i]);
      var keep, next := CleanLine(line, inTable);
      CleanFromStep(lines, i, inTable);
      ghost var added := if keep then [line] else [];
      assert cleanedLines + (added + CleanFrom(lines[i + 1..], next)) == CleanFrom(lines, false);
      if keep {
        cleanedLines := cleanedLines + [line];
      }
      assert cleanedLines + CleanFrom(lines[i + 1..], next) == CleanFrom(lines, false);
      inTable := next;
      i := i + 1;
    }
    assert lines[i..] == [];
  }

  /** One turn of the loop in terms of `CleanFrom`. */
  lemma CleanFromStep(lines: seq<string>, i: nat, inTable: bool)
    requires i < |lines|
    ensures var (keep, next) := CleanStep(Strip(lines[i]), inTable);
      CleanFrom(lines[i..], inTable) == (if keep then [Strip(lines[i])] else []) + CleanFrom(lines[i + 1..], next)
  {
    assert lines[i..][1..] == lines[i + 1..];
  }

  /** A line worth keeping: not empty, and not made of hyphens and blanks only. */
  predicate Meaningful(line: string) {
    line != "" && exists i :: 0 <= i < |line| && line[i] != '-' && !IsSpace(line[i])
  }

  /** The stripped lines, one for one. */
  function StripEach(lines: seq<string>): (r: seq<string>)
    ensures |r| == |lines| && forall i :: 0 <= i < |lines| ==> r[i] == Strip(lines[i])
  {
    seq(|lines|, i requires 0 <= i < |lines| => Strip(lines[i]))
  }

  /** The stripped lines that are meaningful, in order. */
  function Kept(lines: seq<string>): seq<string> {
    if lines == [] then []
    else (if Meaningful(Strip(lines[0])) then [Strip(lines[0])] else []) + Kept(lines[1..])
  }

  /** Removing the hyphens and stripping leaves nothing exactly when the line holds only
      hyphens and whitespace. */
  lemma HyphensOnlyMeans(line: string)
    ensures Strip(RemoveChar(line, '-')) == "" <==> HyphensOnly(line)
  {
    var r := RemoveChar(line, '-');
    RemoveCharMembers(line, '-');
    StripEmpty(r);
    if Strip(r) == "" {
      forall i | 0 <= i < |line| ensures line[i] == '-' || IsSpace(line[i]) {
        if line[i] != '-' {
          assert line[i] in r;
          var j :| 0 <= j < |r| && r[j] == line[i];
        }
      }
    } else {
      var j :| 0 <= j < |r| && !IsSpace(r[j]);
      assert r[j] in line;
      var i :| 0 <= i < |line| && line[i] == r[j];
    }
  }

  /** A table line is always meaningful: it starts with '|' or '+'. */
  lemma TableLineMeaningful(line: string)
    requires StartsTable(line)
    ensures Meaningful(line)
  {
    assert line[0] != '-' && !IsSpace(line[0]);
  }

  /** Whatever the table flag, a line is kept exactly when it is meaningful. */
  lemma CleanStepKeeps(line: string, inTable: bool)
    ensures CleanStep(line, inTable).0 <==> Meaningful(line)
    ensures !CleanStep(line, inTable).1 || StartsTable(line)
  {
    if StartsTable(line) {
      TableLineMeaningful(line);
    }
  }

  /** The table flag never changes the outcome: the cleaning loop keeps exactly the
      meaningful stripped lines, table lines among them. */
  lemma {:induction false} CleanKeepsMeaningful(lines: seq<string>, inTable: bool)
    ensures CleanFrom(lines, inTable) == Kept(lines)
  {
    if lines != [] {
      CleanStepKeeps(Strip(lines[0]), inTable);
      CleanKeepsMeaningful(lines[1..], CleanStep(Strip(lines[0]), inTable).1);
    }
  }

  /** The kept lines are meaningful stripped lines in their original order, and no meaningful
      line is dropped. */
  lemma {:induction false} KeptLines(lines: seq<string>)
    ensures IsSubsequence(Kept(lines), StripEach(lines))
    ensures forall l :: l in Kept(lines) ==> Meaningful(l)
    ensures forall i :: 0 <= i < |lines| && Meaningful(Strip(lines[i])) ==> Strip(lines[i]) in Kept(lines)
  {
    if lines != [] {
      var rest := lines[1..];
      KeptLines(rest);
      var s := StripEach(lines);
      assert s[1..] == StripEach(rest);
      assert forall i :: 1 <= i < |lines| ==> lines[i] == rest[i - 1];
      if Meaningful(Strip(lines[0])) {
        var k := Kept(lines);
        assert k[0] == s[0] && k[1..] == Kept(rest);
      } else {
        assert Kept(lines) == Kept(rest);
        SubsequenceOfTail(Kept(lines), s);
      }
    }
  }

  lemma SubsequenceOfTail<T>(a: seq<T>, b: seq<T>)
    requires b != [] && IsSubsequence(a, b[1..])
    ensures IsSubsequence(a, b)
  {
  }

  // ---------------------------------------------------------------- page markers

  const PageMarker := "<!-- Page"

  /** The `try` body for a marker line: the text after "Page" up to "-->", stripped, as an
      integer; None where `int` or the indexing raises. */
  function MarkerPage(line: string): Option<int> {
    match SecondPiece(line, "Page")
    case None => None
    case Some(p) => ParseInt(Strip(Before(p, "-->")))
  }

  /** The page a line gives: its marker's number, if it is a marker line that parses. */
  function LinePage(line: string): Option<int> {
    if StartsWith(line, PageMarker) then MarkerPage(line) else None
  }

  /** The number given by the first line `read` accepts, or 0. */
  function FirstPage(read: string -> Option<int>, lines: seq<string>): int {
    if lines == [] then 0
    else if read(lines[0]).Some? then read(lines[0]).value
    else FirstPage(read, lines[1..])
  }

  /** The page number of a chunk's lines: that of the first marker that parses, else 0. */
  function PageNumber(lines: seq<string>): int {
    FirstPage(LinePage, lines)
  }

  /** The page-number loop, which breaks at the first marker that parses. */
  method ExtractPageNumber(text: string) returns (page: int)
    ensures page == PageNumber(Split(text, '\n'))
  {
    page := 0;
    var lines := Split(text, '\n');
    var i := 0;
    while i < |lines|
      invariant 0 <= i <= |lines|
      invariant FirstPage(LinePage, lines[i..]) == PageNumber(lines) && page == 0
    {
      var line := lines[i];
      assert lines[i..][1..] == lines[i + 1..];
      if StartsWith(line, PageMarker) {
        var parsed := MarkerPage(line);
        if parsed.Some? {
          page := parsed.value;
          break;
        }
      }
      i := i + 1;
    }
    if i == |lines| {
      assert lines[i..] == [];
    }
  }

  /** The first line that reads as a page decides it; lines before it that do not read are
      skipped. */
  lemma {:induction false} FirstPageIsFirst(read: string -> Option<int>, lines: seq<string>, i: nat)
    requires i < |lines| && read(lines[i]).Some?
    requires forall j :: 0 <= j < i ==> read(lines[j]).None?
    ensures FirstPage(read, lines) == read(lines[i]).value
  {
    if i > 0 {
      assert forall j :: 0 <= j < i - 1 ==> lines[1..][j] == lines[j + 1];
      FirstPageIsFirst(read, lines[1..], i - 1);
    }
  }

  /** Without a line that reads as a page, the page is 0. */
  lemma {:induction false} FirstPageDefault(read: string -> Option<int>, lines: seq<string>)
    requires forall j :: 0 <= j < |lines| ==> read(lines[j]).None?
    ensures FirstPage(read, lines) == 0
  {
    if lines != [] {
      assert forall j :: 0 <= j < |lines| - 1 ==> lines[1..][j] == lines[j + 1];
      FirstPageDefault(read, lines[1..]);
    }
  }

  /** The first marker line that parses decides a chunk's page; marker lines before it that
      do not parse are skipped, and with none the page is 0. */
  lemma PageNumberIsFirst(lines: seq<string>, i: nat)
    requires i < |lines| && StartsWith(lines[i], PageMarker) && MarkerPage(lines[i]).Some?
    requires forall j :: 0 <= j < i ==> LinePage(lines[j]).None?
    ensures PageNumber(lines) == MarkerPage(lines[i]).value
  {
    FirstPageIsFirst(LinePage, lines, i);
  }

  lemma PageNumberDefault(lines: seq<string>)
    requires forall j :: 0 <= j < |lines| ==> LinePage(lines[j]).None?
    ensures PageNumber(lines) == 0
  {
    FirstPageDefault(LinePage, lines);
  }

  // ---------------------------------------------------------------- tables and images

  /** What the converter reports for a table: its content and structure when it has them, and
      the pages it comes from. */
  datatype DocTable = DocTable(content: Option<string>, structure: Option<string>, prov: Option<seq<int>>)

  /** A picture, with the pages it comes from. */
  datatype Picture = Picture(prov: seq<int>, caption: Option<string>, description: Option<string>, ocrText: Option<string>)

  /** A converted PDF: its name when it has one, its tables when it has the attribute, its
      pictures and its markdown export. */
  datatype Document = Document(name: Option<string>, tables: Option<seq<DocTable>>, pictures: seq<Picture>, markdown: string)

  datatype TableInfo = TableInfo(index: nat, content: string, structure: string, page: int) {
    function ToValue(): Value {
      Dict(Cons("table_index", Int(index), Cons("content", Str(content), Cons("structure", Str(structure),
        Cons("page_number", Int(page), [])))))
    }
  }

  datatype ImageInfo = ImageInfo(page: int, caption: string, description: string, ocrText: string) {
    function ToValue(): Value {
      Dict(Cons("page_number", Int(page), Cons("has_image", Bool(true), Cons("caption", Str(caption),
        Cons("description", Str(description), Cons("ocr_text", Str(ocrText),
        Cons("image_type", Str("figure"), Cons("position", Str("unknown"), []))))))))
    }
  }

  function OrEmpty(x: Option<string>): string {
    if x.Some? then x.value else ""
  }

  /** The record for the i-th table: its page is the first of its pages, or 0. */
  function TableInfoOf(i: nat, t: DocTable): TableInfo {
    TableInfo(i, OrEmpty(t.content), OrEmpty(t.structure),
      if t.prov.Some? && |t.prov.value| > 0 then t.prov.value[0] else 0)
  }

  /** The table loop: one record per table, numbered from 0; none without the attribute. */
  method CollectTables(doc: Document) returns (tables: seq<TableInfo>)
    ensures doc.tables.None? ==> tables == []
    ensures doc.tables.Some? ==>
      (|tables| == |doc.tables.value| && forall i :: 0 <= i < |tables| ==> tables[i] == TableInfoOf(i, doc.tables.value[i]))
  {
    tables := [];
    if doc.tables.Some? {
      var ts := doc.tables.value;
      var i := 0;
      while i < |ts|
        invariant 0 <= i <= |ts| && |tables| == i
        invariant forall j :: 0 <= j < i ==> tables[j] == TableInfoOf(j, ts[j])
      {
        tables := tables + [TableInfoOf(i, ts[i])];
        i := i + 1;
      }
    }
  }

  /** The images of the pictures that have a page, in order. */
  function ImageInfos(pictures: seq<Picture>): (r: seq<ImageInfo>)
    ensures |r| <= |pictures|
  {
    if pictures == [] then []
    else
      var p := pictures[|pictures| - 1];
      ImageInfos(pictures[..|pictures| - 1])
        + (if |p.prov| > 0 then [ImageInfo(p.prov[0], OrEmpty(p.caption), OrEmpty(p.description), OrEmpty(p.ocrText))]
           else [])
  }

  /** The picture loop. */
  method CollectImages(doc: Document) returns (images: seq<ImageInfo>)
    ensures images == ImageInfos(doc.pictures)
  {
    images := [];
    var i := 0;
    while i < |doc.pictures|
      invariant 0 <= i <= |doc.pictures|
      invariant images == ImageInfos(doc.pictures[..i])
    {
      var p := doc.pictures[i];
      assert doc.pictures[..i + 1][..i] == doc.pictures[..i];
      if |p.prov| > 0 {
        images := images + [ImageInfo(p.prov[0], OrEmpty(p.caption), OrEmpty(p.description), OrEmpty(p.ocrText))];
      }
      i := i + 1;
    }
    assert doc.pictures[..i] == doc.pictures;
  }

  /** Some picture has `page` as its first page. */
  predicate PictureOn(pictures: seq<Picture>, page: int) {
    exists j :: 0 <= j < |pictures| && |pictures[j].prov| > 0 && pictures[j].prov[0] == page
  }

  /** Some image is on `page`. */
  predicate ImageOn(images: seq<ImageInfo>, page: int) {
    exists m :: 0 <= m < |images| && images[m].page == page
  }

  /** Some table is on `page`. */
  predicate TableOn(tables: seq<TableInfo>, page: int) {
    exists m :: 0 <= m < |tables| && tables[m].page == page
  }

  /** Every picture with a page gives an image on that page, and every image comes from one. */
  lemma {:induction false} ImagePages(pictures: seq<Picture>)
    ensures forall m :: 0 <= m < |ImageInfos(pictures)| ==> PictureOn(pictures, ImageInfos(pictures)[m].page)
    ensures forall j :: 0 <= j < |pictures| && |pictures[j].prov| > 0 ==>
      ImageOn(ImageInfos(pictures), pictures[j].prov[0])
  {
    if pictures != [] {
      var n := |pictures| - 1;
      var front, p := pictures[..n], pictures[n];
      ImagePages(front);
      var r, f := ImageInfos(pictures), ImageInfos(front);
      var extra := if |p.prov| > 0 then [ImageInfo(p.prov[0], OrEmpty(p.caption), OrEmpty(p.description), OrEmpty(p.ocrText))]
                   else [];
      assert r == f + extra;
      forall m | 0 <= m < |r| ensures PictureOn(pictures, r[m].page) {
        if m < |f| {
          assert r[m] == f[m];
          var j :| 0 <= j < |front| && |front[j].prov| > 0 && front[j].prov[0] == f[m].page;
          assert front[j] == pictures[j];
        } else {
          assert |pictures[n].prov| > 0 && pictures[n].prov[0] == r[m].page;
        }
      }
      forall j | 0 <= j < |pictures| && |pictures[j].prov| > 0 ensures ImageOn(r, pictures[j].prov[0]) {
        if j < n {
          assert front[j] == pictures[j];
          var m :| 0 <= m < |f| && f[m].page == front[j].prov[0];
          assert r[m] == f[m];
        } else {
          assert r[|f|].page == pictures[j].prov[0];
        }
      }
    }
  }

  // ---------------------------------------------------------------- content type and metadata

  /** "image" if an image is on the page, else "table" if a table is, else "text". */
  function ContentType(page: int, tables: seq<TableInfo>, images: seq<ImageInfo>): (r: string)
    ensures ImageOn(images, page) ==> r == "image"
    ensures !ImageOn(images, page) && TableOn(tables, page) ==> r == "table"
    ensures !ImageOn(images, page) && !TableOn(tables, page) ==> r == "text"
  {
    var afterTables := if exists j :: 0 <= j < |tables| && tables[j].page == page then "table" else "text";
    if exists j :: 0 <= j < |images| && images[j].page == page then "image" else afterTables
  }

  /** The dict comprehension that drops the entries whose value is None, keeping their order. */
  function DropNone(es: Entries): Entries {
    if es == [] then []
    else (if es[0].1 == Null then [] else [es[0]]) + DropNone(es[1..])
  }

  /** The comprehension keeps, in order, exactly the entries whose value is not None. */
  lemma {:induction false} DropNoneKeeps(es: Entries)
    ensures forall i :: 0 <= i < |DropNone(es)| ==> DropNone(es)[i].1 != Null
    ensures forall e :: e in es && e.1 != Null ==> e in DropNone(es)
    ensures IsSubsequence(DropNone(es), es)
  {
    if es != [] {
      var rest := DropNone(es[1..]);
      DropNoneKeeps(es[1..]);
      if es[0].1 != Null {
        assert DropNone(es)[1..] == rest;
      } else {
        assert DropNone(es) == rest;
        SubsequenceOfTail(rest, es);
      }
    }
  }

  /** With no None value the comprehension changes nothing. */
  lemma {:induction false} DropNoneKeepsAll(es: Entries)
    requires forall i :: 0 <= i < |es| ==> es[i].1 != Null
    ensures DropNone(es) == es
  {
    if es != [] {
      DropNoneKeepsAll(es[1..]);
    }
  }

  /** The metadata stored with every chunk of a file, before None values are dropped. */
  function RawMetadata(title: Option<string>, tables: seq<TableInfo>, images: seq<ImageInfo>): Entries {
    [("title", if title.Some? then Str(title.value) else Null), ("author", Null), ("date", Null),
     ("keywords", List([])), ("headings", List([])),
     ("tables", List(seq(|tables|, i requires 0 <= i < |tables| => tables[i].ToValue()))),
     ("images", List(seq(|images|, i requires 0 <= i < |images| => images[i].ToValue())))]
  }

  function Metadata(title: Option<string>, tables: seq<TableInfo>, images: seq<ImageInfo>): Entries {
    DropNone(RawMetadata(title, tables, images))
  }

  /** Author and date are always dropped, the title only when the document has no name; the
      empty keyword and heading lists stay. */
  lemma MetadataKeys(title: Option<string>, tables: seq<TableInfo>, images: seq<ImageInfo>)
    ensures Keys(Metadata(title, tables, images)) ==
      (if title.Some? then ["title"] else []) + ["keywords", "headings", "tables", "images"]
  {
    var raw := RawMetadata(title, tables, images);
    DropNoneLeadingNulls(raw);
  }

  /** Entries shaped like the raw metadata (None in the second and third place, a value in every
      place after them) lose exactly those two, and the first when it is None. */
  lemma DropNoneLeadingNulls(es: Entries)
    requires |es| >= 3 && es[1].1 == Null && es[2].1 == Null
    requires forall i :: 3 <= i < |es| ==> es[i].1 != Null
    ensures DropNone(es) == (if es[0].1 == Null then [] else [es[0]]) + es[3..]
  {
    DropNoneKeepsAll(es[3..]);
    assert DropNone(es[2..]) == DropNone(es[3..]) by { assert es[2..][1..] == es[3..]; }
    assert DropNone(es[1..]) == DropNone(es[2..]) by { assert es[1..][1..] == es[2..]; }
  }

  // ---------------------------------------------------------------- index actions

  /** `os.path.basename(path)`: the part after the last '/'. */
  function Basename(path: string): string {
    if path == [] || path[|path| - 1] == '/' then []
    else Basename(path[..|path| - 1]) + [path[|path| - 1]]
  }

  /** The base name is the whole tail of the path after its last '/': it holds no '/', and the
      character just before it, if any, is '/'. */
  lemma {:induction false} BasenameShape(path: string)
    ensures var r := Basename(path);
      '/' !in r && |r| <= |path| && r == path[|path| - |r|..]
      && (|r| < |path| ==> path[|path| - |r| - 1] == '/')
  {
    if path != [] && path[|path| - 1] != '/' {
      var init := path[..|path| - 1];
      BasenameShape(init);
      assert init[|init| - |Basename(init)|..] + [path[|path| - 1]] == path[|path| - |Basename(path)|..];
    }
  }

  /** The document id of the i-th chunk of a file. */
  function DocumentId(basename: string, i: nat): string {
    basename + "_" + NatToString(i)
  }

  /** Two ids are equal only for the same file name and chunk position, even when file names
      themselves contain '_'. */
  lemma DocumentIdInjective(b1: string, i: nat, b2: string, j: nat)
    requires DocumentId(b1, i) == DocumentId(b2, j)
    ensures b1 == b2 && i == j
  {
    var id := DocumentId(b1, i);
    if |b1| < |b2| {
      DigitsAfter(b1, i, |b2|);
    } else if |b2| < |b1| {
      DigitsAfter(b2, j, |b1|);
    } else {
      assert b1 == id[..|b1|] == b2;
      assert NatToString(i) == id[|b1| + 1..] == NatToString(j);
      NatToStringInjective(i, j);
    }
  }

  /** Past the separator, an id holds digits only. */
  lemma DigitsAfter(b: string, i: nat, k: int)
    requires |b| < k < |DocumentId(b, i)|
    ensures IsDigit(DocumentId(b, i)[k])
  {
    assert DocumentId(b, i)[k] == NatToString(i)[k - |b| - 1];
  }

  /** A bulk action for one chunk. */
  datatype IndexAction = IndexAction(index: string, id: string, text: string, vector: Value, sourcePdf: string,
                                     page: int, chunkIndex: nat, contentType: string, metadata: Entries)
  {
    /** The `_source` document. */
    function Source(): Entries {
      Cons("text", Str(text), Cons("vector", vector, Cons("source_pdf", Str(sourcePdf),
        Cons("page_number", Int(page), Cons("chunk_index", Int(chunkIndex), Cons("content_type", Str(contentType),
        Cons("metadata", Dict(metadata), [])))))))
    }
  }

  /** What a file contributes to every one of its chunks. */
  datatype Extraction = Extraction(basename: string, tables: seq<TableInfo>, images: seq<ImageInfo>, title: Option<string>)

  /** The action for the i-th chunk: none for a blank chunk or when embedding it raises. */
  function ChunkAction(index: string, x: Extraction, embed: string -> Outcome<Value>, i: nat, chunk: string)
    : Option<IndexAction>
  {
    if Strip(chunk) == "" then None
    else
      match embed(chunk)
      case Raised(_) => None
      case Returned(vector) =>
        var page := PageNumber(Split(chunk, '\n'));
        Some(IndexAction(index, DocumentId(x.basename, i), chunk, vector, x.basename, page, i,
          ContentType(page, x.tables, x.images), Metadata(x.title, x.tables, x.images)))
  }

  /** The actions for the first n chunks. */
  function Actions(index: string, x: Extraction, embed: string -> Outcome<Value>, chunks: seq<string>, n: nat)
    : seq<IndexAction>
    requires n <= |chunks|
  {
    if n == 0 then []
    else
      Actions(index, x, embed, chunks, n - 1)
        + (match ChunkAction(index, x, embed, n - 1, chunks[n - 1]) case Some(a) => [a] case None => [])
  }

  /** One more chunk adds its action, if it has one, after the earlier chunks' actions. */
  lemma ActionsStep(index: string, x: Extraction, embed: string -> Outcome<Value>, chunks: seq<string>, i: nat)
    requires i < |chunks|
    ensures ChunkAction(index, x, embed, i, chunks[i]).None? ==>
      Actions(index, x, embed, chunks, i + 1) == Actions(index, x, embed, chunks, i)
    ensures ChunkAction(index, x, embed, i, chunks[i]).Some? ==>
      Actions(index, x, embed, chunks, i + 1)
        == Actions(index, x, embed, chunks, i) + [ChunkAction(index, x, embed, i, chunks[i]).value]
  {
  }

  /** The chunk loop. */
  method BuildActions(index: string, x: Extraction, embed: string -> Outcome<Value>, chunks: seq<string>)
    returns (actions: seq<IndexAction>)
    ensures actions == Actions(index, x, embed, chunks, |chunks|)
  {
    actions := [];
    var i := 0;
    while i < |chunks|
      invariant 0 <= i <= |chunks|
      invariant actions == Actions(index, x, embed, chunks, i)
    {
      var text := chunks[i];
      if Strip(text) == "" {
        ActionsStep(index, x, embed, chunks, i);
        i := i + 1;
        continue;
      }
      var vector := embed(text);
      if vector.Raised? {
        ActionsStep(index, x, embed, chunks, i);
        i := i + 1;
        continue;
      }
      var page := ExtractPageNumber(text);
      var contentType := ContentType(page, x.tables, x.images);
      var metadata := Metadata(x.title, x.tables, x.images);
      ActionsStep(index, x, embed, chunks, i);
      actions := actions + [IndexAction(index, DocumentId(x.basename, i), text, vector.value, x.basename,
        page, i, contentType, metadata)];
      i := i + 1;
    }
  }

  /** Each action comes from a non-blank chunk at its own position, carries that position in
      its id, and the positions increase. */
  lemma {:induction false} ActionsFromChunks(index: string, x: Extraction, embed: string -> Outcome<Value>,
                                            chunks: seq<string>, n: nat)
    requires n <= |chunks|
    ensures var a := Actions(index, x, embed, chunks, n);
      |a| <= n
      && (forall p :: 0 <= p < |a| ==>
            a[p].chunkIndex < n && a[p].text == chunks[a[p].chunkIndex] && Strip(a[p].text) != ""
            && a[p].id == DocumentId(x.basename, a[p].chunkIndex))
      && (forall p, q :: 0 <= p < q < |a| ==> a[p].chunkIndex < a[q].chunkIndex)
  {
    if n > 0 {
      ActionsFromChunks(index, x, embed, chunks, n - 1);
      var prev := Actions(index, x, embed, chunks, n - 1);
      match ChunkAction(index, x, embed, n - 1, chunks[n - 1])
      case None =>
        assert Actions(index, x, embed, chunks, n) == prev;
      case Some(a) =>
        ChunkActionFrom(index, x, embed, n - 1, chunks[n - 1]);
        assert Actions(index, x, embed, chunks, n) == prev + [a];
    }
  }

  /** A chunk's action, when there is one, comes from that non-blank chunk and carries its
      number and id. */
  lemma ChunkActionFrom(index: string, x: Extraction, embed: string -> Outcome<Value>, i: nat, chunk: string)
    requires ChunkAction(index, x, embed, i, chunk).Some?
    ensures var a := ChunkAction(index, x, embed, i, chunk).value;
      a.chunkIndex == i && a.text == chunk && Strip(chunk) != "" && a.id == DocumentId(x.basename, i)
  {
  }

  /** The ids of one file's actions are pairwise distinct. */
  lemma ActionIdsDistinct(index: string, x: Extraction, embed: string -> Outcome<Value>, chunks: seq<string>)
    ensures var a := Actions(index, x, embed, chunks, |chunks|);
      forall p, q :: 0 <= p < q < |a| ==> a[p].id != a[q].id
  {
    var a := Actions(index, x, embed, chunks, |chunks|);
    ActionsFromChunks(index, x, embed, chunks, |chunks|);
    forall p, q | 0 <= p < q < |a| ensures a[p].id != a[q].id {
      if a[p].id == a[q].id {
        DocumentIdInjective(x.basename, a[p].chunkIndex, x.basename, a[q].chunkIndex);
      }
    }
  }

  /** The searcher's record for a hit on a stored action whose metadata has no `image_info`:
      it is built, `has_image` is False and `image_info` is absent. */
  lemma StoredHitHasNoImage(a: IndexAction, score: Value)
    requires "image_info" !in Keys(a.metadata)
    ensures var hit := Dict(Cons("_score", score, Cons("_source", Dict(a.Source()), [])));
      Searcher.HitResult(hit).Returned?
      && Lookup(Searcher.HitResult(hit).value, "has_image") == Some(Bool(false))
      && Lookup(Searcher.HitResult(hit).value, "image_info").None?
  {
    var src := a.Source();
    LookupKeys(a.metadata, "image_info");
    LookupKeys(src, "text");
    LookupKeys(src, "source_pdf");
    LookupKeys(src, "page_number");
    LookupKeys(src, "metadata");
    assert Searcher.HasImage(Dict(a.metadata)) == Returned(Bool(false));
    var hit := Dict(Cons("_score", score, Cons("_source", Dict(src), [])));
    LookupKeys(hit.entries, "_score");
    LookupKeys(hit.entries, "_source");
    assert Searcher.SourceResult(score, Dict(src)).Returned?;
  }

  /** A chunk stored by the indexer, found by the searcher, never reports an image: the stored
      metadata has `images` but no `image_info`. */
  lemma IndexedChunkHasNoImageInfo(index: string, x: Extraction, embed: string -> Outcome<Value>, i: nat,
                                   chunk: string, score: Value)
    requires ChunkAction(index, x, embed, i, chunk).Some?
    ensures var a := ChunkAction(index, x, embed, i, chunk).value;
      var hit := Dict(Cons("_score", score, Cons("_source", Dict(a.Source()), [])));
      Searcher.HitResult(hit).Returned?
      && Lookup(Searcher.HitResult(hit).value, "has_image") == Some(Bool(false))
      && Lookup(Searcher.HitResult(hit).value, "image_info").None?
  {
    var a := ChunkAction(index, x, embed, i, chunk).value;
    assert a.metadata == Metadata(x.title, x.tables, x.images);
    MetadataKeys(x.title, x.tables, x.images);
    StoredHitHasNoImage(a, score);
  }

  // ---------------------------------------------------------------- files and counting

  /** A PDF found in the directory: its path, and the converted document, or None when the
      file is missing or empty, nothing was extracted, or processing it raised. */
  datatype PdfFile = PdfFile(path: string, document: Option<Document>)

  /** The text splitter, the embedder and `bulk`, which reports the items that failed. */
  datatype IndexServices = IndexServices(
    split: string -> seq<string>,
    embed: string -> Outcome<Value>,
    bulk: seq<IndexAction> -> Outcome<seq<Value>>)

  /** The tables of a document, as the table loop records them. */
  function TableInfos(doc: Document): seq<TableInfo> {
    if doc.tables.None? then []
    else seq(|doc.tables.value|, i requires 0 <= i < |doc.tables.value| => TableInfoOf(i, doc.tables.value[i]))
  }

  function ChunksOf(svc: IndexServices, doc: Document): seq<string> {
    svc.split(Join("\n", CleanFrom(Split(doc.markdown, '\n'), false)))
  }

  /** The actions built for one file. */
  function FileActions(index: string, svc: IndexServices, f: PdfFile): seq<IndexAction> {
    match f.document
    case None => []
    case Some(doc) =>
      var chunks := ChunksOf(svc, doc);
      Actions(index, Extraction(Basename(f.path), TableInfos(doc), ImageInfos(doc.pictures), doc.name),
        svc.embed, chunks, |chunks|)
  }

  /** A file counts when it has actions and bulk indexing reports no failed item. */
  predicate FileIndexed(index: string, svc: IndexServices, f: PdfFile) {
    var actions := FileActions(index, svc, f);
    actions != [] && svc.bulk(actions) == Returned([])
  }

  /** `successful_files` after the first n files, for a given test of whether a file was
      indexed. */
  function SuccessCount(indexed: PdfFile -> bool, files: seq<PdfFile>, n: nat): nat
    requires n <= |files|
  {
    if n == 0 then 0
    else SuccessCount(indexed, files, n - 1) + (if indexed(files[n - 1]) then 1 else 0)
  }

  /** `total_chunks` after the first n files: each indexed file adds its number of actions. */
  function ChunkCount(indexed: PdfFile -> bool, size: PdfFile -> nat, files: seq<PdfFile>, n: nat): nat
    requires n <= |files|
  {
    if n == 0 then 0
    else ChunkCount(indexed, size, files, n - 1) + (if indexed(files[n - 1]) then size(files[n - 1]) else 0)
  }

  /** `FileIndexed` and the action count for one index and one set of services. */
  function IndexedBy(index: string, svc: IndexServices): PdfFile -> bool {
    f => FileIndexed(index, svc, f)
  }

  function ActionCount(index: string, svc: IndexServices): PdfFile -> nat {
    f => |FileActions(index, svc, f)|
  }

  /** The body of the file loop for a converted document: tables, images, cleaning, splitting
      and the chunk loop. */
  method ProcessFile(index: string, svc: IndexServices, path: string, doc: Document) returns (actions: seq<IndexAction>)
    ensures actions == FileActions(index, svc, PdfFile(path, Some(doc)))
  {
    var tables := CollectTables(doc);
    assert tables == TableInfos(doc);
    var images := CollectImages(doc);
    var cleaned := CleanMarkdown(doc.markdown);
    var chunks := svc.split(cleaned);
    actions := BuildActions(index, Extraction(Basename(path), tables, images, doc.name), svc.embed, chunks);
  }

  /** One file of the file loop: its actions, when the PDF converted, sent to `bulk`; whether
      no item failed, and how many actions were sent. */
  method IndexFile(index: string, svc: IndexServices, f: PdfFile) returns (indexed: bool, size: nat)
    ensures indexed == IndexedBy(index, svc)(f)
    ensures indexed ==> size == ActionCount(index, svc)(f)
  {
    if f.document.None? {
      return false, 0;
    }
    var actions := ProcessFile(index, svc, f.path, f.document.value);
    assert PdfFile(f.path, Some(f.document.value)) == f;
    if actions == [] {
      return false, 0;
    }
    var failed := svc.bulk(actions);
    indexed := failed.Returned? && failed.value == [];
    size := |actions|;
  }

  /** The body of the file loop: the i-th file is indexed, and the totals so far become the
      totals for the first i + 1 files. */
  method TallyFile(index: string, svc: IndexServices, files: seq<PdfFile>, i: nat, totalChunks: nat,
                   successfulFiles: nat)
    returns (total: nat, successful: nat)
    requires i < |files|
    requires successfulFiles == SuccessCount(IndexedBy(index, svc), files, i)
    requires totalChunks == ChunkCount(IndexedBy(index, svc), ActionCount(index, svc), files, i)
    ensures successful == SuccessCount(IndexedBy(index, svc), files, i + 1)
    ensures total == ChunkCount(IndexedBy(index, svc), ActionCount(index, svc), files, i + 1)
  {
    var indexed, size := IndexFile(index, svc, files[i]);
    CountsStep(IndexedBy(index, svc), ActionCount(index, svc), files, i, indexed, size);
    total, successful := totalChunks, successfulFiles;
    if indexed {
      total := total + size;
      successful := successful + 1;
    }
  }

  /** `process_and_index_pdfs`: False when no PDF is found, otherwise whether any file was
      indexed; the two counters are returned beside it. */
  method ProcessAndIndexPdfs(index: string, svc: IndexServices, files: seq<PdfFile>)
    returns (ok: bool, totalChunks: nat, successfulFiles: nat)
    ensures successfulFiles == SuccessCount(IndexedBy(index, svc), files, |files|)
    ensures totalChunks == ChunkCount(IndexedBy(index, svc), ActionCount(index, svc), files, |files|)
    ensures ok <==> successfulFiles > 0
  {
    totalChunks, successfulFiles := 0, 0;
    if files == [] {
      return false, totalChunks, successfulFiles;
    }
    var i := 0;
    while i < |files|
      invariant 0 <= i <= |files|
      invariant successfulFiles == SuccessCount(IndexedBy(index, svc), files, i)
      invariant totalChunks == ChunkCount(IndexedBy(index, svc), ActionCount(index, svc), files, i)
    {
      totalChunks, successfulFiles := TallyFile(index, svc, files, i, totalChunks, successfulFiles);
      i := i + 1;
    }
    ok := successfulFiles > 0;
  }

  /** One more file adds one to the count, and its size to the chunks, exactly when it passes
      the test: given that test's answer `passed` and, when it passes, its size `n`. */
  lemma CountsStep(indexed: PdfFile -> bool, size: PdfFile -> nat, files: seq<PdfFile>, i: nat, passed: bool, n: nat)
    requires i < |files| && passed == indexed(files[i]) && (passed ==> n == size(files[i]))
    ensures SuccessCount(indexed, files, i + 1) == SuccessCount(indexed, files, i) + (if passed then 1 else 0)
    ensures ChunkCount(indexed, size, files, i + 1) == ChunkCount(indexed, size, files, i) + (if passed then n else 0)
  {
  }

  /** Some file is counted exactly when some file passes the test; when every counted file
      has an action, each counted file adds at least one chunk. */
  lemma {:induction false} CountsMean(indexed: PdfFile -> bool, size: PdfFile -> nat, files: seq<PdfFile>, n: nat)
    requires n <= |files|
    requires forall f :: indexed(f) ==> size(f) >= 1
    ensures SuccessCount(indexed, files, n) > 0 <==> exists j :: 0 <= j < n && indexed(files[j])
    ensures SuccessCount(indexed, files, n) <= ChunkCount(indexed, size, files, n)
    ensures SuccessCount(indexed, files, n) <= n
  {
    if n > 0 {
      CountsMean(indexed, size, files, n - 1);
    }
  }

  /** `successful_files > 0` exactly when some file was indexed without failures; the counted
      files are at most all files and at most the indexed chunks. */
  lemma CountsMeanIndexed(index: string, svc: IndexServices, files: seq<PdfFile>)
    ensures var count := SuccessCount(IndexedBy(index, svc), files, |files|);
      (count > 0 <==> exists j :: 0 <= j < |files| && FileIndexed(index, svc, files[j]))
      && count <= ChunkCount(IndexedBy(index, svc), ActionCount(index, svc), files, |files|)
      && count <= |files|
  {
    CountsMean(IndexedBy(index, svc), ActionCount(index, svc), files, |files|);
  }

  // ---------------------------------------------------------------- main

  /** The steps `main` may take after the embedder is set up. */
  datatype Step = SetupIndex | DeleteIndex | IndexPdfs

  /** The steps `main` takes, in order: with no index it sets one up; with one and without
      `--append` it deletes and sets it up again; with `--append` it reuses it. A step that
      fails ends the run, and so does an exception from the embedder or the existence check. */
  function MainSteps(embedderReady: bool, indexExists: Outcome<bool>, append: bool, succeeds: Step -> bool)
    : seq<Step>
  {
    if !embedderReady || indexExists.Raised? then []
    else if !indexExists.value then
      [SetupIndex] + (if succeeds(SetupIndex) then [IndexPdfs] else [])
    else if !append then
      [DeleteIndex] + (if !succeeds(DeleteIndex) then []
                       else [SetupIndex] + (if succeeds(SetupIndex) then [IndexPdfs] else []))
    else [IndexPdfs]
  }

  /** PDFs are indexed exactly when the index is ready: reused under `--append`, or set up
      (after a successful delete when one existed); indexing is always the last step, and an
      appending run never deletes. */
  lemma MainIndexesWhenReady(embedderReady: bool, indexExists: Outcome<bool>, append: bool, succeeds: Step -> bool)
    ensures var steps := MainSteps(embedderReady, indexExists, append, succeeds);
      (IndexPdfs in steps <==>
        embedderReady && indexExists.Returned?
        && ((indexExists.value && append)
            || (succeeds(SetupIndex) && (!indexExists.value || succeeds(DeleteIndex)))))
      && (IndexPdfs in steps ==> steps[|steps| - 1] == IndexPdfs)
      && (append ==> DeleteIndex !in steps)
      && (DeleteIndex in steps ==> steps[0] == DeleteIndex && indexExists == Returned(true))
  {
  }
}
