/** Ingestion of the bulk bill summaries (db.py): the retry predicate, the
    embedding function's mode, HTML escaping of text fragments, extraction of
    one document from a parsed XML file, the depth-first walk over the bulk
    listing tree, and the loading sequence that fills the collection.
    HTTP answers are part of the tree (each node carries the answer to its own
    fetch) and XPath results are given per selector. */
module Db {
  import opened Wrappers
  import opened Strings

  const BulkUrl: string := "https://www.govinfo.gov/bulkdata/json"
  const XmlMimeType: string := "application/xml"
  const BillSummaryTable: string := "billsummaries"
  const EmbeddingModel: string := "models/text-embedding-004"
  const DocumentTask: string := "retrieval_document"
  const QueryTask: string := "retrieval_query"

  // ---------------------------------------------------------------------
  // is_retriable

  /** What the embedding client can raise: an API error with its code, or anything else. */
  datatype ClientFailure = ApiError(code: int) | OtherFailure(message: string)

  /** Exactly the rate-limit and service-unavailable API errors are retried. */
  function IsRetriable(e: ClientFailure): (b: bool)
    ensures b <==> e == ApiError(429) || e == ApiError(503)
  {
    e.ApiError? && e.code in {429, 503}
  }

  // ---------------------------------------------------------------------
  // Embedder

  /** What one call of the embedding function sends to the embedding model. */
  datatype EmbedRequest = EmbedRequest(model: string, contents: seq<string>, task: string)

  /** The embedding function; `docMode` chooses the task at call time. */
  class Embedder {
    var docMode: bool

    constructor (docMode: bool)
      ensures this.docMode == docMode
    {
      this.docMode := docMode;
    }

    /** Switches to query mode; nothing else changes. */
    method SetQuery()
      modifies this
      ensures !docMode
    {
      docMode := false;
    }

    function Task(): (task: string)
      reads this
      ensures task == DocumentTask <==> docMode
      ensures task == QueryTask <==> !docMode
    {
      if docMode then DocumentTask else QueryTask
    }

    /** `__call__`: the request sent downstream for a batch, with the task of
        the mode in force at the time of the call. */
    method Embed(toEmbed: seq<string>) returns (req: EmbedRequest)
      ensures req.model == EmbeddingModel && req.contents == toEmbed
      ensures req.task == (if docMode then DocumentTask else QueryTask)
    {
      req := EmbedRequest(EmbeddingModel, toEmbed, Task());
    }
  }

  /** The mode at call time, not at construction, decides the task. */
  method ModeAtCallTime(batch: seq<string>) returns (first: EmbedRequest, second: EmbedRequest)
    ensures first.task == DocumentTask && second.task == QueryTask
    ensures first.contents == batch && second.contents == batch
  {
    var e := new Embedder(true);
    first := e.Embed(batch);
    e.SetQuery();
    second := e.Embed(batch);
  }

  // ---------------------------------------------------------------------
  // html.escape

  function EscapeChar(c: char): string {
    if c == '&' then "&amp;"
    else if c == '<' then "&lt;"
    else if c == '>' then "&gt;"
    else if c == '"' then "&quot;"
    else if c == '\'' then "&#x27;"
    else [c]
  }

  /** No character that HTML treats as markup or as a quote. */
  predicate NoMarkup(s: string) {
    forall i :: 0 <= i < |s| ==> s[i] != '<' && s[i] != '>' && s[i] != '"' && s[i] != '\''
  }

  /** `html.escape(s)`: `&`, `<`, `>`, `"` and `'` become character references. */
  function Escape(s: string): (r: string)
    ensures NoMarkup(r)
    ensures |r| >= |s|
  {
    if s == [] then [] else EscapeChar(s[0]) + Escape(s[1..])
  }

  /** The character a text starts with once a leading character reference
      is read, and how many characters that takes. */
  function Reference(s: string): (r: (char, nat))
    requires |s| > 0
    ensures 1 <= r.1 <= |s|
  {
    if "&amp;" <= s then ('&', 5)
    else if "&lt;" <= s then ('<', 4)
    else if "&gt;" <= s then ('>', 4)
    else if "&quot;" <= s then ('"', 6)
    else if "&#x27;" <= s then ('\'', 6)
    else (s[0], 1)
  }

  /** Reads the five character references back. */
  function Unescape(s: string): string
    decreases |s|
  {
    if s == [] then []
    else
      var r := Reference(s);
      [r.0] + Unescape(s[r.1..])
  }

  lemma UnescapeChar(c: char, rest: string)
    ensures Unescape(EscapeChar(c) + rest) == [c] + Unescape(rest)
  {
    var s := EscapeChar(c) + rest;
    ReferenceOf(c, rest);
    assert s[|EscapeChar(c)|..] == rest;
  }

  lemma ReferenceOf(c: char, rest: string)
    ensures Reference(EscapeChar(c) + rest) == (c, |EscapeChar(c)|)
  {
    if c == '&' {
      ReferenceAmp(rest);
    } else if c == '<' {
      ReferenceLt(rest);
    } else if c == '>' {
      ReferenceGt(rest);
    } else if c == '"' {
      ReferenceQuot(rest);
    } else if c == '\'' {
      ReferenceApos(rest);
    } else {
      ReferencePlain(c, rest);
    }
  }

  lemma ReferenceAmp(rest: string)
    ensures Reference("&amp;" + rest) == ('&', 5)
  {
    assert ("&amp;" + rest)[..5] == "&amp;";
  }

  lemma ReferenceLt(rest: string)
    ensures Reference("&lt;" + rest) == ('<', 4)
  {
    var s := "&lt;" + rest;
    assert s[..4] == "&lt;" && s[1] == 'l';
  }

  lemma ReferenceGt(rest: string)
    ensures Reference("&gt;" + rest) == ('>', 4)
  {
    var s := "&gt;" + rest;
    assert s[..4] == "&gt;" && s[1] == 'g';
  }

  lemma ReferenceQuot(rest: string)
    ensures Reference("&quot;" + rest) == ('"', 6)
  {
    var s := "&quot;" + rest;
    assert s[..6] == "&quot;" && s[1] == 'q';
  }

  lemma ReferenceApos(rest: string)
    ensures Reference("&#x27;" + rest) == ('\'', 6)
  {
    var s := "&#x27;" + rest;
    assert s[..6] == "&#x27;" && s[1] == '#';
  }

  lemma ReferencePlain(c: char, rest: string)
    requires c != '&'
    ensures Reference([c] + rest) == (c, 1)
  {
    assert ([c] + rest)[0] == c;
  }

  /** Unescaping an escaped text followed by anything gives the text back first. */
  lemma {:induction false} UnescapeEscapedPrefix(s: string, rest: string)
    ensures Unescape(Escape(s) + rest) == s + Unescape(rest)
    decreases |s|
  {
    if s == [] {
      assert Escape(s) + rest == rest;
    } else {
      var tail := Escape(s[1..]) + rest;
      assert Escape(s) + rest == EscapeChar(s[0]) + tail;
      UnescapeChar(s[0], tail);
      UnescapeEscapedPrefix(s[1..], rest);
      assert Unescape(tail) == s[1..] + Unescape(rest);
      assert [s[0]] + (s[1..] + Unescape(rest)) == ([s[0]] + s[1..]) + Unescape(rest);
      assert [s[0]] + s[1..] == s;
    }
  }

  /** Escaping loses nothing. */
  lemma EscapeRoundTrip(s: string)
    ensures Unescape(Escape(s)) == s
  {
    UnescapeEscapedPrefix(s, "");
    assert Escape(s) + "" == Escape(s);
  }

  /** Escaping fragment by fragment is escaping the joined text. */
  lemma {:induction false} EscapeConcat(a: string, b: string)
    ensures Escape(a + b) == Escape(a) + Escape(b)
    decreases |a|
  {
    if a != [] {
      assert (a + b)[1..] == a[1..] + b;
      EscapeConcat(a[1..], b);
    } else {
      assert a + b == b;
    }
  }

  /** No character that escaping replaces. */
  predicate Plain(s: string) {
    forall i :: 0 <= i < |s| ==> s[i] !in "&<>\"'"
  }

  /** A text without special characters is left as it is. */
  lemma {:induction false} EscapePlain(s: string)
    requires Plain(s)
    ensures Escape(s) == s
    decreases |s|
  {
    if s != [] {
      assert s[0] !in "&<>\"'";
      EscapePlain(s[1..]);
      assert [s[0]] + s[1..] == s;
    }
  }

  lemma EscapeSingle(c: char)
    ensures Escape([c]) == EscapeChar(c)
  {
    assert [c][1..] == [];
  }

  lemma EscapeOpenTag()
    ensures Escape("<b>") == "&lt;b&gt;"
  {
    assert "<b>" == ['<'] + ['b'] + ['>'];
    EscapeConcat(['<'] + ['b'], ['>']);
    EscapeConcat(['<'], ['b']);
    EscapeSingle('<');
    EscapeSingle('b');
    EscapeSingle('>');
  }

  lemma EscapeCloseTag()
    ensures Escape("</b>") == "&lt;/b&gt;"
  {
    assert "</b>" == ['<'] + "/b" + ['>'];
    EscapeConcat(['<'] + "/b", ['>']);
    EscapeConcat(['<'], "/b");
    EscapeSingle('<');
    assert Plain("/b");
    EscapePlain("/b");
    EscapeSingle('>');
  }

  lemma FundRoadsPlain()
    ensures Plain("Fund roads")
  {
  }

  /** Formatting markup around a plain text is kept, as escaped text. */
  lemma EscapeTagged(t: string)
    requires Plain(t)
    ensures Escape("<b>" + t + "</b>") == "&lt;b&gt;" + t + "&lt;/b&gt;"
  {
    EscapeConcat("<b>" + t, "</b>");
    EscapeConcat("<b>", t);
    EscapePlain(t);
    EscapeOpenTag();
    EscapeCloseTag();
  }

  /** The summary `<b>Fund roads</b>`: its markup is escaped. */
  lemma EscapeExample()
    ensures Escape("<b>Fund roads</b>") == "&lt;b&gt;Fund roads&lt;/b&gt;"
  {
    FundRoadsPlain();
    EscapeTagged("Fund roads");
    assert "<b>" + "Fund roads" + "</b>" == "<b>Fund roads</b>";
    assert "&lt;b&gt;" + "Fund roads" + "&lt;/b&gt;" == "&lt;b&gt;Fund roads&lt;/b&gt;";
  }

  // ---------------------------------------------------------------------
  // load_doc

  /** A parsed XML file, reduced to what the selectors find in it: for each
      selector, the strings it yields (attributes such as the measure id) and
      the `.text` of the elements it yields (None for an element without text). */
  datatype Xml = Xml(values: map<string, seq<string>>, texts: map<string, seq<Option<string>>>)

  function Values(x: Xml, path: string): seq<string> {
    if path in x.values then x.values[path] else []
  }

  function Texts(x: Xml, path: string): seq<Option<string>> {
    if path in x.texts then x.texts[path] else []
  }

  /** The selectors of one load: the body, the id, and one per metadata key. */
  datatype Paths = Paths(load: string, id: string, metadata: map<string, string>)

  /** One extracted document: (body, id, metadata). */
  datatype Doc = Doc(body: string, id: string, metadata: map<string, string>)

  /** A leaf of the listing tree with the answer to its fetch. */
  datatype Leaf = Leaf(link: string, status: int, xml: Xml)

  /** The texts of the fragments joined in order (a missing text adds nothing). */
  function Joined(parts: seq<Option<string>>): string {
    if parts == [] then ""
    else Joined(parts[..|parts| - 1]) + (match parts[|parts| - 1] case Some(t) => t case None => "")
  }

  /** The body loop: each fragment's text escaped and appended.  A fragment
      without text cannot be escaped (AttributeError). */
  function EscapeParts(parts: seq<Option<string>>): (r: Result<string>)
    ensures r.Ok? <==> forall i :: 0 <= i < |parts| ==> parts[i].Some?
    ensures r.Err? ==> r.error == AttributeMissing
    ensures r.Ok? ==> NoMarkup(r.value)
  {
    if parts == [] then Ok("")
    else
      var body :- EscapeParts(parts[..|parts| - 1]);
      match parts[|parts| - 1]
      case None => Err(AttributeMissing)
      case Some(t) =>
        NoMarkupConcat(body, Escape(t));
        Ok(body + Escape(t))
  }

  lemma NoMarkupConcat(a: string, b: string)
    requires NoMarkup(a) && NoMarkup(b)
    ensures NoMarkup(a + b)
  {
    assert forall i :: 0 <= i < |a + b| ==> (a + b)[i] == if i < |a| then a[i] else b[i - |a|];
  }

  /** The body is the escaped text of all fragments joined in order. */
  lemma {:induction false} EscapePartsJoined(parts: seq<Option<string>>)
    requires EscapeParts(parts).Ok?
    ensures EscapeParts(parts).value == Escape(Joined(parts))
    decreases |parts|
  {
    if parts != [] {
      var init := parts[..|parts| - 1];
      EscapePartsJoined(init);
      var t := parts[|parts| - 1].value;
      EscapeConcat(Joined(init), t);
    }
  }

  /** Unescaping the body gives back the fragments' texts exactly. */
  lemma BodyReadsBack(parts: seq<Option<string>>)
    requires EscapeParts(parts).Ok?
    ensures Unescape(EscapeParts(parts).value) == Joined(parts)
  {
    EscapePartsJoined(parts);
    EscapeRoundTrip(Joined(parts));
  }

  predicate MetadataFound(x: Xml, paths: Paths) {
    forall k :: k in paths.metadata ==> |Values(x, paths.metadata[k])| > 0
  }

  /** What `load_doc` returns for a leaf: the first id match, the escaped
      body, and the first match of every metadata selector.  A failed fetch
      leaves `doc_id` unassigned; an empty id or metadata match is an IndexError. */
  function Extract(leaf: Leaf, paths: Paths): (r: Result<Doc>)
    ensures leaf.status != 200 ==> r == Err(UnboundLocal("doc_id"))
    ensures r.Ok? <==>
      && leaf.status == 200
      && |Values(leaf.xml, paths.id)| > 0
      && EscapeParts(Texts(leaf.xml, paths.load)).Ok?
      && MetadataFound(leaf.xml, paths)
    ensures r.Ok? ==>
      && r.value.id == Values(leaf.xml, paths.id)[0]
      && r.value.body == EscapeParts(Texts(leaf.xml, paths.load)).value
      && r.value.metadata.Keys == paths.metadata.Keys
      && forall k :: k in paths.metadata ==> r.value.metadata[k] == Values(leaf.xml, paths.metadata[k])[0]
  {
    if leaf.status != 200 then Err(UnboundLocal("doc_id"))
    else
      var ids := Values(leaf.xml, paths.id);
      if |ids| == 0 then Err(IndexOutOfRange)
      else
        var body :- EscapeParts(Texts(leaf.xml, paths.load));
        if !MetadataFound(leaf.xml, paths) then Err(IndexOutOfRange)
        else Ok(Doc(body, ids[0], map k | k in paths.metadata :: Values(leaf.xml, paths.metadata[k])[0]))
  }

  /** An extracted body never holds raw markup and reads back as the fragments' texts. */
  lemma ExtractedBody(leaf: Leaf, paths: Paths)
    requires Extract(leaf, paths).Ok?
    ensures NoMarkup(Extract(leaf, paths).value.body)
    ensures Extract(leaf, paths).value.body == Escape(Joined(Texts(leaf.xml, paths.load)))
    ensures Unescape(Extract(leaf, paths).value.body) == Joined(Texts(leaf.xml, paths.load))
  {
    EscapePartsJoined(Texts(leaf.xml, paths.load));
    BodyReadsBack(Texts(leaf.xml, paths.load));
  }

  /** `load_doc`: the fetch answer is in the leaf; the body and the metadata
      are filled in loops. */
  method LoadDoc(leaf: Leaf, paths: Paths) returns (r: Result<Doc>)
    ensures r == Extract(leaf, paths)
  {
    if leaf.status != 200 {
      return Err(UnboundLocal("doc_id"));
    }
    var ids := Values(leaf.xml, paths.id);
    if |ids| == 0 {
      return Err(IndexOutOfRange);
    }
    var docId := ids[0];
    var parts := Texts(leaf.xml, paths.load);
    var body := "";
    var i := 0;
    while i < |parts|
      invariant 0 <= i <= |parts|
      invariant EscapeParts(parts[..i]) == Ok(body)
    {
      assert parts[..i + 1][..i] == parts[..i];
      match parts[i] {
        case None =>
          assert EscapeParts(parts) == Err(AttributeMissing);
          return Err(AttributeMissing);
        case Some(t) =>
          body := body + Escape(t);
      }
      i := i + 1;
    }
    assert parts[..i] == parts;
    var metadata: map<string, string> := map[];
    var remaining := paths.metadata.Keys;
    while remaining != {}
      invariant remaining <= paths.metadata.Keys
      invariant metadata.Keys == paths.metadata.Keys - remaining
      invariant forall k :: k in metadata ==>
        |Values(leaf.xml, paths.metadata[k])| > 0 && metadata[k] == Values(leaf.xml, paths.metadata[k])[0]
      decreases remaining
    {
      var key :| key in remaining;
      var found := Values(leaf.xml, paths.metadata[key]);
      if |found| == 0 {
        return Err(IndexOutOfRange);
      }
      metadata := metadata[key := found[0]];
      remaining := remaining - {key};
    }
    assert MetadataFound(leaf.xml, paths);
    assert metadata == map k | k in paths.metadata :: Values(leaf.xml, paths.metadata[k])[0];
    return Ok(Doc(body, docId, metadata));
  }

  // ---------------------------------------------------------------------
  // recursive_load

  /** The answer to fetching a listing URL: its status and, on 200, its
      `files` entries in listing order. */
  datatype Listing = Listing(status: int, files: seq<Entry>)

  /** A listing entry: a folder (with the answer to fetching its link) or a
      file (with its declared mime type and the answer to fetching it). */
  datatype Entry =
    | Folder(link: string, listing: Listing)
    | File(link: string, mimeType: string, status: int, xml: Xml)

  /** Two walk outcomes in sequence: the first failure wins, otherwise the
      documents are concatenated. */
  function Then(a: Result<seq<Doc>>, b: Result<seq<Doc>>): Result<seq<Doc>> {
    match a
    case Err(e) => Err(e)
    case Ok(x) =>
      match b
      case Err(e) => Err(e)
      case Ok(y) => Ok(x + y)
  }

  /** What `recursive_load` returns for a fetched listing: nothing when the
      fetch failed, otherwise the documents of its entries in order. */
  function Walk(l: Listing, paths: Paths): (r: Result<seq<Doc>>)
    ensures l.status != 200 ==> r == Ok([])
    ensures l.status == 200 ==> (r.Ok? <==> forall i :: 0 <= i < |l.files| ==> WalkEntry(l.files[i], paths).Ok?)
    decreases l, 1
  {
    if l.status != 200 then Ok([]) else WalkFiles(l.files, paths)
  }

  /** The entries of a listing in order: the walk goes through exactly when
      every entry's walk does. */
  function WalkFiles(fs: seq<Entry>, paths: Paths): (r: Result<seq<Doc>>)
    ensures r.Ok? <==> forall i :: 0 <= i < |fs| ==> WalkEntry(fs[i], paths).Ok?
    decreases fs, 0
  {
    if fs == [] then Ok([])
    else
      var init := fs[..|fs| - 1];
      assert forall i :: 0 <= i < |init| ==> init[i] == fs[i];
      Then(WalkFiles(init, paths), WalkEntry(fs[|fs| - 1], paths))
  }

  /** A folder is walked; an XML file is extracted; any other file is skipped. */
  function WalkEntry(e: Entry, paths: Paths): (r: Result<seq<Doc>>)
    ensures e.File? && e.mimeType != XmlMimeType ==> r == Ok([])
    ensures e.File? && e.mimeType == XmlMimeType ==>
      var x := Extract(Leaf(e.link, e.status, e.xml), paths);
      && (r.Ok? <==> x.Ok?)
      && (r.Ok? ==> r.value == [x.value])
      && (r.Err? ==> r.error == x.error)
    decreases e, 0
  {
    match e
    case Folder(_, sub) => Walk(sub, paths)
    case File(link, mimeType, status, xml) =>
      if mimeType == XmlMimeType then
        match Extract(Leaf(link, status, xml), paths)
        case Err(err) => Err(err)
        case Ok(d) => Ok([d])
      else Ok([])
  }

  /** The independent description of the walk: the XML files reachable
      through folders whose fetch succeeded, in depth-first listing order. */
  function Leaves(l: Listing): seq<Leaf>
    decreases l, 1
  {
    if l.status != 200 then [] else LeavesOfFiles(l.files)
  }

  function LeavesOfFiles(fs: seq<Entry>): seq<Leaf>
    decreases fs, 0
  {
    if fs == [] then [] else LeavesOfFiles(fs[..|fs| - 1]) + LeavesOfEntry(fs[|fs| - 1])
  }

  function LeavesOfEntry(e: Entry): seq<Leaf>
    decreases e, 0
  {
    match e
    case Folder(_, sub) => Leaves(sub)
    case File(link, mimeType, status, xml) =>
      if mimeType == XmlMimeType then [Leaf(link, status, xml)] else []
  }

  /** One extraction per leaf, in order. */
  function ExtractAll(leaves: seq<Leaf>, paths: Paths): (rs: seq<Result<Doc>>)
    ensures |rs| == |leaves|
    ensures forall i :: 0 <= i < |leaves| ==> rs[i] == Extract(leaves[i], paths)
  {
    if leaves == [] then []
    else ExtractAll(leaves[..|leaves| - 1], paths) + [Extract(leaves[|leaves| - 1], paths)]
  }

  /** All extractions succeed, or the first failure is the outcome. */
  function Collect(rs: seq<Result<Doc>>): (r: Result<seq<Doc>>)
    ensures r.Ok? <==> forall i :: 0 <= i < |rs| ==> rs[i].Ok?
    ensures r.Ok? ==> |r.value| == |rs| && forall i :: 0 <= i < |rs| ==> rs[i] == Ok(r.value[i])
    ensures r.Err? ==> exists i :: 0 <= i < |rs| && rs[i] == Err(r.error) && forall j :: 0 <= j < i ==> rs[j].Ok?
  {
    if rs == [] then Ok([])
    else
      var init := rs[..|rs| - 1];
      var prefix := Collect(init);
      assert forall j :: 0 <= j < |init| ==> rs[j] == init[j];
      if prefix.Err? then
        var i :| 0 <= i < |init| && init[i] == Err(prefix.error) && forall j :: 0 <= j < i ==> init[j].Ok?;
        assert rs[i] == Err(prefix.error);
        Err(prefix.error)
      else if rs[|rs| - 1].Err? then rs[|rs| - 1].PropagateFailure()
      else Ok(prefix.value + [rs[|rs| - 1].value])
  }

  lemma {:induction false} ExtractAllAppend(a: seq<Leaf>, b: seq<Leaf>, paths: Paths)
    ensures ExtractAll(a + b, paths) == ExtractAll(a, paths) + ExtractAll(b, paths)
  {
    var l, r := ExtractAll(a + b, paths), ExtractAll(a, paths) + ExtractAll(b, paths);
    assert |l| == |r|;
    forall i | 0 <= i < |l|
      ensures l[i] == r[i]
    {
      if i < |a| {
        assert (a + b)[i] == a[i];
      } else {
        assert (a + b)[i] == b[i - |a|];
      }
    }
  }

  lemma {:induction false} CollectAppend(a: seq<Result<Doc>>, b: seq<Result<Doc>>)
    ensures Collect(a + b) == Then(Collect(a), Collect(b))
    decreases |b|
  {
    if b == [] {
      assert a + b == a;
      if Collect(a).Ok? {
        assert Collect(a).value + [] == Collect(a).value;
      }
    } else {
      var b' := b[..|b| - 1];
      assert (a + b)[..|a + b| - 1] == a + b';
      assert (a + b)[|a + b| - 1] == b[|b| - 1];
      CollectAppend(a, b');
      match Collect(a)
      case Err(e) =>
      case Ok(x) =>
        match Collect(b')
        case Err(e) =>
        case Ok(y) =>
          match b[|b| - 1]
          case Err(e) =>
          case Ok(d) =>
            assert x + (y + [d]) == (x + y) + [d];
    }
  }

  /** The walk extracts exactly the reachable XML leaves, in depth-first
      listing order, and stops at the first extraction that fails. */
  lemma {:induction false} WalkIsLeaves(l: Listing, paths: Paths)
    ensures Walk(l, paths) == Collect(ExtractAll(Leaves(l), paths))
    decreases l, 1
  {
    if l.status == 200 {
      WalkFilesIsLeaves(l.files, paths);
    }
  }

  lemma {:induction false} WalkFilesIsLeaves(fs: seq<Entry>, paths: Paths)
    ensures WalkFiles(fs, paths) == Collect(ExtractAll(LeavesOfFiles(fs), paths))
    decreases fs, 0
  {
    if fs != [] {
      var init, last := fs[..|fs| - 1], fs[|fs| - 1];
      WalkFilesIsLeaves(init, paths);
      WalkEntryIsLeaves(last, paths);
      ExtractAllAppend(LeavesOfFiles(init), LeavesOfEntry(last), paths);
      CollectAppend(ExtractAll(LeavesOfFiles(init), paths), ExtractAll(LeavesOfEntry(last), paths));
    }
  }

  lemma {:induction false} WalkEntryIsLeaves(e: Entry, paths: Paths)
    ensures WalkEntry(e, paths) == Collect(ExtractAll(LeavesOfEntry(e), paths))
    decreases e, 0
  {
    match e
    case Folder(_, sub) => WalkIsLeaves(sub, paths);
    case File(link, mimeType, status, xml) =>
      if mimeType == XmlMimeType {
        var leaf := Leaf(link, status, xml);
        var rs := [Extract(leaf, paths)];
        assert ExtractAll([leaf], paths) == rs;
        assert rs[..0] == [];
        match Extract(leaf, paths)
        case Err(_) =>
        case Ok(d) => assert [] + [d] == [d];
      }
  }

  /** A successful walk yields one document per reachable XML leaf, each the
      extraction of that leaf, in order: N XML leaves give N documents however
      many other files there are. */
  lemma WalkCount(l: Listing, paths: Paths)
    requires Walk(l, paths).Ok?
    ensures |Walk(l, paths).value| == |Leaves(l)|
    ensures forall i :: 0 <= i < |Leaves(l)| ==> Extract(Leaves(l)[i], paths) == Ok(Walk(l, paths).value[i])
  {
    WalkIsLeaves(l, paths);
  }

  /** The walk fails exactly when some reachable XML leaf cannot be extracted,
      and then with the failure of the first such leaf. */
  lemma WalkFailure(l: Listing, paths: Paths)
    ensures Walk(l, paths).Err? <==> exists i :: 0 <= i < |Leaves(l)| && Extract(Leaves(l)[i], paths).Err?
  {
    WalkIsLeaves(l, paths);
    var rs := ExtractAll(Leaves(l), paths);
    assert forall i :: 0 <= i < |rs| ==> rs[i] == Extract(Leaves(l)[i], paths);
  }

  /** When the walk fails, it fails with the error of the first reachable XML
      leaf whose extraction fails. */
  lemma FirstFailure(l: Listing, paths: Paths)
    requires Walk(l, paths).Err?
    ensures exists i :: 0 <= i < |Leaves(l)| && Extract(Leaves(l)[i], paths) == Err(Walk(l, paths).error) &&
                        forall j :: 0 <= j < i ==> Extract(Leaves(l)[j], paths).Ok?
  {
    WalkIsLeaves(l, paths);
    CollectedFailure(Leaves(l), paths, Walk(l, paths).error);
  }

  lemma CollectedFailure(leaves: seq<Leaf>, paths: Paths, e: Error)
    requires Collect(ExtractAll(leaves, paths)) == Err(e)
    ensures exists i :: 0 <= i < |leaves| && Extract(leaves[i], paths) == Err(e) &&
                        forall j :: 0 <= j < i ==> Extract(leaves[j], paths).Ok?
  {
    var rs := ExtractAll(leaves, paths);
    var i :| 0 <= i < |rs| && rs[i] == Err(e) && forall j :: 0 <= j < i ==> rs[j].Ok?;
    assert Extract(leaves[i], paths) == Err(e);
  }

  lemma {:induction false} LeavesOfFilesAppend(a: seq<Entry>, b: seq<Entry>)
    ensures LeavesOfFiles(a + b) == LeavesOfFiles(a) + LeavesOfFiles(b)
    decreases |b|
  {
    if b == [] {
      assert a + b == a;
    } else {
      var b' := b[..|b| - 1];
      assert (a + b)[..|a + b| - 1] == a + b';
      assert (a + b)[|a + b| - 1] == b[|b| - 1];
      LeavesOfFilesAppend(a, b');
    }
  }

  /** An entry that contributes nothing (a folder whose fetch failed, or a
      file that is not XML) can be dropped without changing the walk: the
      entries after it are still visited. */
  lemma SkippedEntry(fs: seq<Entry>, i: int, paths: Paths)
    requires 0 <= i < |fs|
    requires (fs[i].Folder? && fs[i].listing.status != 200) || (fs[i].File? && fs[i].mimeType != XmlMimeType)
    ensures WalkFiles(fs, paths) == WalkFiles(fs[..i] + fs[i + 1..], paths)
  {
    SkippedLeaves(fs, i);
    WalkFilesIsLeaves(fs, paths);
    WalkFilesIsLeaves(fs[..i] + fs[i + 1..], paths);
  }

  lemma SkippedLeaves(fs: seq<Entry>, i: int)
    requires 0 <= i < |fs|
    requires LeavesOfEntry(fs[i]) == []
    ensures LeavesOfFiles(fs) == LeavesOfFiles(fs[..i] + fs[i + 1..])
  {
    var pre, post := fs[..i], fs[i + 1..];
    assert fs == pre + [fs[i]] + post;
    LeavesOfFilesAppend(pre + [fs[i]], post);
    assert (pre + [fs[i]])[..|pre|] == pre;
    assert LeavesOfFiles(pre + [fs[i]]) == LeavesOfFiles(pre) + LeavesOfEntry(fs[i]);
    assert LeavesOfFiles(pre) + [] == LeavesOfFiles(pre);
    LeavesOfFilesAppend(pre, post);
  }

  /** `recursive_load`: the walk over one fetched listing, recursing into
      folders and extracting XML files, accumulating the documents. */
  method RecursiveLoad(l: Listing, paths: Paths) returns (r: Result<seq<Doc>>)
    ensures r == Walk(l, paths)
    decreases l
  {
    if l.status != 200 {
      return Ok([]);
    }
    var docs: seq<Doc> := [];
    var i := 0;
    while i < |l.files|
      invariant 0 <= i <= |l.files|
      invariant WalkFiles(l.files[..i], paths) == Ok(docs)
      decreases |l.files| - i
    {
      var f := l.files[i];
      assert l.files[..i + 1][..i] == l.files[..i];
      assert WalkFiles(l.files[..i + 1], paths) == Then(Ok(docs), WalkEntry(f, paths));
      match f {
        case Folder(_, sub) =>
          assert f in l.files;
          var sr := RecursiveLoad(sub, paths);
          if sr.Err? {
            WalkPrefixFails(l.files, i + 1, paths);
            return Err(sr.error);
          }
          docs := docs + sr.value;
        case File(link, mimeType, status, xml) =>
          if mimeType == XmlMimeType {
            var d := LoadDoc(Leaf(link, status, xml), paths);
            if d.Err? {
              WalkPrefixFails(l.files, i + 1, paths);
              return Err(d.error);
            }
            docs := docs + [d.value];
          } else {
            assert docs + [] == docs;
          }
      }
      i := i + 1;
    }
    assert l.files[..i] == l.files;
    return Ok(docs);
  }

  /** A failure in a prefix of the entries is the failure of the whole list. */
  lemma {:induction false} WalkPrefixFails(fs: seq<Entry>, n: int, paths: Paths)
    requires 0 <= n <= |fs|
    requires WalkFiles(fs[..n], paths).Err?
    ensures WalkFiles(fs, paths) == WalkFiles(fs[..n], paths)
    decreases |fs| - n
  {
    if n < |fs| {
      assert fs[..n + 1][..n] == fs[..n];
      WalkPrefixFails(fs, n + 1, paths);
    } else {
      assert fs[..n] == fs;
    }
  }

  // ---------------------------------------------------------------------
  // load_docs

  /** The bulk-data listing URL of one collection kind and congress. */
  function RootUrl(kind: string, congress: int): (url: string)
    ensures BulkUrl + "/" <= url
  {
    BulkUrl + "/" + kind + "/" + IntToString(congress)
  }

  /** The URL ends with the kind and the congress as two path segments. */
  lemma RootUrlPieces(kind: string, congress: int)
    requires '/' !in kind
    ensures Split(RootUrl(kind, congress)) == Split(BulkUrl) + [kind, IntToString(congress)]
  {
    SplitAppend(BulkUrl, kind);
    SplitAppend(BulkUrl + "/" + kind, IntToString(congress));
  }

  /** Different congresses are listed under different URLs. */
  lemma RootUrlInjective(kind: string, c1: int, c2: int)
    requires '/' !in kind
    requires RootUrl(kind, c1) == RootUrl(kind, c2)
    ensures c1 == c2
  {
    RootUrlPieces(kind, c1);
    RootUrlPieces(kind, c2);
    var n := |Split(BulkUrl)|;
    assert Split(RootUrl(kind, c1))[n + 1] == IntToString(c1);
    assert Split(RootUrl(kind, c2))[n + 1] == IntToString(c2);
    IntToStringInjective(c1, c2);
  }

  /** `load_docs`: the walk from the root listing of the kind and congress;
      `fetch` gives the listing answer for a URL. */
  method LoadDocs(fetch: string -> Listing, kind: string, congress: int, paths: Paths)
    returns (r: Result<seq<Doc>>)
    ensures r == Walk(fetch(RootUrl(kind, congress)), paths)
  {
    r := RecursiveLoad(fetch(RootUrl(kind, congress)), paths);
  }

  // ---------------------------------------------------------------------
  // load_bill_summaries

  const BillSummaryKind: string := "BILLSUM"

  /** The selectors of a bill summary file. */
  const BillSummaryPaths: Paths := Paths(
    "item/summary/summary-text",
    "item/@measure-id",
    map["congress" := "item/@congress", "type" := "item/@measure-type", "number" := "item/@measure-number"])

  /** One stored record: id, document, metadata, and the embedding request
      made for the document when it was added. */
  datatype Record = Record(id: string, document: string, metadata: map<string, string>, request: EmbedRequest)

  /** A collection handle as `get_or_create_collection` returns it: the
      collection's name and the embedding function it was opened with. */
  datatype Collection = Collection(name: string, embedding: Embedder)

  /** The vector store: its collections by name, each a list of records. */
  class Store {
    var collections: map<string, seq<Record>>

    constructor ()
      ensures collections == map[]
    {
      collections := map[];
    }

    /** The records of a collection, none when it does not exist yet. */
    function Records(name: string): seq<Record>
      reads this
    {
      if name in collections then collections[name] else []
    }

    /** `get_or_create_collection`: the named collection exists afterwards,
        with the records it already had, and the handle carries `embed`. */
    method GetOrCreate(name: string, embed: Embedder) returns (c: Collection)
      modifies this
      ensures c == Collection(name, embed)
      ensures collections == old(collections)[name := old(Records(name))]
    {
      collections := collections[name := Records(name)];
      c := Collection(name, embed);
    }

    /** `add` of one document: the record is
        appended to the named collection, embedded by `embed` as a batch of one. */
    method Add(name: string, doc: Doc, embed: Embedder) returns (rec: Record)
      modifies this
      ensures rec == Record(doc.id, doc.body, doc.metadata,
                            EmbedRequest(EmbeddingModel, [doc.body], if embed.docMode then DocumentTask else QueryTask))
      ensures collections == old(collections)[name := old(Records(name)) + [rec]]
    {
      var req := embed.Embed([doc.body]);
      rec := Record(doc.id, doc.body, doc.metadata, req);
      collections := collections[name := Records(name) + [rec]];
    }
  }

  /** `load_bill_summaries`: the bill summaries of one congress are loaded
      and added in walk order, each embedded as a document; afterwards the
      embedder is switched to query mode, and the collection is returned.
      A failure while loading leaves the store untouched. */
  method LoadBillSummaries(fetch: string -> Listing, store: Store, congress: int)
    returns (r: Result<Collection>)
    modifies store
    ensures r.Err? ==> Walk(fetch(RootUrl(BillSummaryKind, congress)), BillSummaryPaths) == Err(r.error)
    ensures r.Err? ==> store.collections == old(store.collections)
    ensures r.Ok? ==> r.value.name == BillSummaryTable && fresh(r.value.embedding) && !r.value.embedding.docMode
    ensures r.Ok? ==>
      var docs := Walk(fetch(RootUrl(BillSummaryKind, congress)), BillSummaryPaths);
      && docs.Ok?
      && store.collections.Keys == old(store.collections).Keys + {BillSummaryTable}
      && (forall name :: name in store.collections && name != BillSummaryTable ==>
            store.collections[name] == old(store.collections)[name])
      && store.Records(BillSummaryTable) == old(store.Records(BillSummaryTable)) + Stored(docs.value)
  {
    var documents := LoadDocs(fetch, BillSummaryKind, congress, BillSummaryPaths);
    if documents.Err? {
      return Err(documents.error);
    }
    var embed := new Embedder(true);
    var db := store.GetOrCreate(BillSummaryTable, embed);
    AddAll(store, db.name, documents.value, embed);
    embed.SetQuery();
    return Ok(db);
  }

  /** The `add` loop of `load_bill_summaries`: the documents are appended to
      the named collection in order, each embedded as a document. */
  method AddAll(store: Store, name: string, docs: seq<Doc>, embed: Embedder)
    requires embed.docMode && name in store.collections
    modifies store
    ensures store.collections == old(store.collections)[name := old(store.collections[name]) + Stored(docs)]
  {
    ghost var before := store.collections[name];
    assert store.collections == store.collections[name := before];
    assert docs[..0] == [] && before + [] == before;
    var i := 0;
    while i < |docs|
      invariant 0 <= i <= |docs|
      invariant store.collections == old(store.collections)[name := before + Stored(docs[..i])]
      decreases |docs| - i
    {
      var doc := docs[i];
      assert store.Records(name) == before + Stored(docs[..i]);
      var rec := store.Add(name, doc, embed);
      assert rec == StoredOne(doc);
      assert docs[..i + 1] == docs[..i] + [doc];
      StoredAppend(docs[..i], doc);
      assert before + Stored(docs[..i + 1]) == (before + Stored(docs[..i])) + [rec];
      i := i + 1;
    }
    assert docs[..i] == docs;
  }

  /** The records of documents added in order while the embedder is in
      document mode. */
  function Stored(docs: seq<Doc>): (rs: seq<Record>)
    ensures |rs| == |docs|
    ensures forall i :: 0 <= i < |docs| ==>
      rs[i].id == docs[i].id && rs[i].document == docs[i].body && rs[i].metadata == docs[i].metadata &&
      rs[i].request == EmbedRequest(EmbeddingModel, [docs[i].body], DocumentTask)
  {
    if docs == [] then []
    else Stored(docs[..|docs| - 1]) + [StoredOne(docs[|docs| - 1])]
  }

  function StoredOne(d: Doc): Record {
    Record(d.id, d.body, d.metadata, EmbedRequest(EmbeddingModel, [d.body], DocumentTask))
  }

  lemma StoredAppend(docs: seq<Doc>, d: Doc)
    ensures Stored(docs + [d]) == Stored(docs) + [StoredOne(d)]
  {
    assert (docs + [d])[..|docs|] == docs;
  }
}
