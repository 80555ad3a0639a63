/** The Congress.gov API client (congress.py): URL construction, the
    endpoint builders of the tools, the selection of a bill text version and
    format, and the tool schemas offered to the language model.  HTTP is
    replaced by two oracles: `Api` answers an authenticated API request and
    `Web` answers a plain GET of a text URL. */
module Congress {
  import opened Wrappers
  import opened Json
  import opened Strings

  const BaseUrl: string := "https://api.congress.gov/v3"

  /** The eight bill types the schemas allow for `billType`. */
  const BillTypes: seq<string> := ["hr", "s", "hjres", "sjres", "hconres", "sconres", "hres", "sres"]

  /** Defaults of `list_bills` and of `get_bill_text`. */
  const DefaultOffset: int := 0
  const DefaultLimit: int := 250
  const DefaultTextFormat: string := "Formatted XML"

  /** An API answer: the status code and the decoded JSON body. */
  datatype ApiResponse = ApiResponse(status: int, body: Json)
  /** A plain GET answer: the status code and the response text. */
  datatype WebResponse = WebResponse(status: int, text: string)

  type Params = map<string, Json>
  type Api = (string, Params) -> ApiResponse
  type Web = string -> WebResponse

  // ---------------------------------------------------------------------
  // Tool schemas

  datatype Property = Property(name: string, kind: string, description: string, allowed: Option<seq<string>>)

  /** A function declaration offered to the model.  `required` is None when
      the schema has no "required" entry at all. */
  datatype Schema = Schema(name: string, description: string, properties: seq<Property>, required: Option<seq<string>>)

  function PropertyNames(s: Schema): set<string> {
    set p | p in s.properties :: p.name
  }

  /** Every required name is a declared property, and property names are distinct. */
  predicate WellFormedSchema(s: Schema) {
    && (s.required.Some? ==> forall n :: n in s.required.value ==> n in PropertyNames(s))
    && (forall i, j :: 0 <= i < j < |s.properties| ==> s.properties[i].name != s.properties[j].name)
  }

  function Prop(name: string, kind: string, description: string): Property {
    Property(name, kind, description, None)
  }

  const CallEndpointSchema: Schema := Schema(
    "call_endpoint", "call an endpoint on the congress API",
    [Prop("endpoint", "string", "The endpoint to access. Can be absolute or relative to " + BaseUrl)],
    Some(["endpoint"]))

  const ListBillsSchema: Schema := Schema(
    "list_bills", "Lists bills being considered by Congress",
    [ Prop("offset", "integer", "offset for the list of bills"),
      Prop("limit", "integer", "the number of bills to return"),
      Prop("fromDate", "string", "the date of the earliest bills to return, leave blank for no restriction"),
      Prop("toDate", "string", "the date of the lastest bills to return, leave blank for no restriction"),
      Prop("congress", "integer", "the number of the congress to gets bills from, leave blank for the current congress")],
    Some([]))

  const CongressProp: Property := Prop("congress", "integer", "the number of the congress which considered the bill")
  const BillTypeProp: Property := Property("billType", "string", "the type of bill", Some(BillTypes))
  const BillNumberProp: Property := Prop("billNumber", "integer", "the bill number")

  const GetBillSchema: Schema := Schema(
    "get_bill", "Gets detailed information about a bill",
    [CongressProp, BillTypeProp, BillNumberProp],
    Some(["congress", "billType", "billNumber"]))

  const GetBillTextSchema: Schema := Schema(
    "get_bill_text", "Gets the bill text",
    [ CongressProp, BillTypeProp, BillNumberProp,
      Prop("asOf", "string", "set this to a date in YYYY/MM/DD format if you want to get the text before that date")],
    Some(["congress", "billType", "billNumber"]))

  const GetMembersSchema: Schema := Schema(
    "get_members", "Gets a list of members of congress",
    [ Prop("congress", "integer", "search by a specific congress"),
      Prop("state", "string", "Two letter identifier for the state"),
      Prop("district", "integer", "The district number. Can only be specified if the state is also set"),
      Prop("current", "boolean", "Whether to only return current members")],
    None)

  /** The parameter names `list_bills` accepts as keyword arguments. */
  const ListBillsParameters: set<string> := {"offset", "limit", "fromDate", "toDate", "congress"}

  lemma SchemasWellFormed()
    ensures WellFormedSchema(CallEndpointSchema)
    ensures WellFormedSchema(ListBillsSchema)
    ensures WellFormedSchema(GetBillSchema)
    ensures WellFormedSchema(GetBillTextSchema)
    ensures WellFormedSchema(GetMembersSchema)
  {
    CallEndpointSchemaWellFormed();
    ListBillsSchemaWellFormed();
    GetBillSchemaWellFormed();
    GetBillTextSchemaWellFormed();
    GetMembersSchemaWellFormed();
  }

  lemma CallEndpointSchemaWellFormed()
    ensures WellFormedSchema(CallEndpointSchema)
  {
    assert CallEndpointSchema.properties[0].name == "endpoint";
  }

  lemma ListBillsSchemaWellFormed()
    ensures WellFormedSchema(ListBillsSchema)
  {
  }

  lemma GetBillSchemaWellFormed()
    ensures WellFormedSchema(GetBillSchema)
  {
    assert GetBillSchema.properties[0].name == "congress";
    assert GetBillSchema.properties[1].name == "billType";
    assert GetBillSchema.properties[2].name == "billNumber";
  }

  lemma GetBillTextSchemaWellFormed()
    ensures WellFormedSchema(GetBillTextSchema)
  {
    assert GetBillTextSchema.properties[0].name == "congress";
    assert GetBillTextSchema.properties[1].name == "billType";
    assert GetBillTextSchema.properties[2].name == "billNumber";
  }

  lemma GetMembersSchemaWellFormed()
    ensures WellFormedSchema(GetMembersSchema)
  {
  }

  /** Both bill schemas restrict `billType` to the eight bill types, and the
      declared parameters of `list_bills` are exactly the ones the function accepts. */
  lemma SchemaParameters()
    ensures GetBillSchema.properties[1].name == "billType" && GetBillSchema.properties[1].allowed == Some(BillTypes)
    ensures GetBillTextSchema.properties[1].name == "billType" && GetBillTextSchema.properties[1].allowed == Some(BillTypes)
    ensures |BillTypes| == 8
    ensures PropertyNames(ListBillsSchema) == ListBillsParameters
  {
    var s := ListBillsSchema;
    assert s.properties[0].name == "offset" && s.properties[1].name == "limit";
    assert s.properties[2].name == "fromDate" && s.properties[3].name == "toDate";
    assert s.properties[4].name == "congress";
  }

  // ---------------------------------------------------------------------
  // call_endpoint

  /** The URL `call_endpoint` requests: an endpoint that already starts with
      the base URL is used as it is, any other is appended to it after a '/'. */
  function Url(endpoint: string): (url: string)
    ensures BaseUrl <= url
    ensures |endpoint| <= |url| && url[|url| - |endpoint|..] == endpoint
  {
    if BaseUrl <= endpoint then endpoint else BaseUrl + "/" + endpoint
  }

  /** Building the URL twice changes nothing. */
  lemma UrlIdempotent(endpoint: string)
    ensures Url(Url(endpoint)) == Url(endpoint)
  {
  }

  /** An endpoint is used verbatim exactly when it already starts with the base URL;
      otherwise the relative endpoint is recovered after the base URL and a '/'. */
  lemma UrlVerbatim(endpoint: string)
    ensures Url(endpoint) == endpoint <==> BaseUrl <= endpoint
    ensures !(BaseUrl <= endpoint) ==>
      Url(endpoint)[..|BaseUrl| + 1] == BaseUrl + "/" && Url(endpoint)[|BaseUrl| + 1..] == endpoint
  {
    if Url(endpoint) == endpoint {
      assert BaseUrl <= Url(endpoint);
    }
  }

  /** `call_endpoint(endpoint, params)`: the decoded body on status 200, and
      None (after reporting the status) on any other status. */
  function CallEndpoint(api: Api, endpoint: string, params: Params): (r: Option<Json>)
    ensures r.Some? <==> api(Url(endpoint), params).status == 200
    ensures r.Some? ==> r.value == api(Url(endpoint), params).body
  {
    var resp := api(Url(endpoint), params);
    if resp.status == 200 then Some(resp.body) else None
  }

  // ---------------------------------------------------------------------
  // list_bills

  function OptString(s: Option<string>): Json {
    match s
    case None => JNull
    case Some(v) => JStr(v)
  }

  function ListBillsEndpoint(congress: Option<int>): (e: string)
    ensures congress.None? <==> e == "bill"
  {
    match congress
    case None => "bill"
    case Some(c) => "bill/" + IntToString(c)
  }

  /** Reads the congress back from the pieces of a `list_bills` endpoint. */
  function ParseBillsEndpoint(pieces: seq<string>): Option<Option<int>> {
    if pieces == ["bill"] then Some(None)
    else if |pieces| == 2 && pieces[0] == "bill" then
      match ParseInt(pieces[1])
      case None => None
      case Some(c) => Some(Some(c))
    else None
  }

  /** The endpoint carries a congress segment exactly when a congress is given. */
  lemma ListBillsEndpointRoundTrip(congress: Option<int>)
    ensures ParseBillsEndpoint(Split(ListBillsEndpoint(congress))) == Some(congress)
  {
    if congress.Some? {
      var c := IntToString(congress.value);
      assert ListBillsEndpoint(congress) == "bill" + "/" + c;
      SplitAppend("bill", c);
      SplitSingle("bill");
      ParseIntToString(congress.value);
    } else {
      SplitSingle("bill");
    }
  }

  /** The query parameters of `list_bills`: the dates travel under the API's
      own names `fromDateTime` and `toDateTime`. */
  function ListBillsParams(offset: int, limit: int, fromDate: Option<string>, toDate: Option<string>): (p: Params)
    ensures p.Keys == {"offset", "limit", "fromDateTime", "toDateTime"}
    ensures p["offset"] == JInt(offset) && p["limit"] == JInt(limit)
    ensures p["fromDateTime"].JNull? <==> fromDate.None?
    ensures fromDate.Some? ==> p["fromDateTime"] == JStr(fromDate.value)
    ensures p["toDateTime"].JNull? <==> toDate.None?
    ensures toDate.Some? ==> p["toDateTime"] == JStr(toDate.value)
  {
    map["offset" := JInt(offset), "limit" := JInt(limit),
        "fromDateTime" := OptString(fromDate), "toDateTime" := OptString(toDate)]
  }

  /** `list_bills(...)`: the `bills` entry of the answer.  A failed call leaves
      None, and subscripting it raises. */
  function ListBills(api: Api, offset: int, limit: int, fromDate: Option<string>,
                     toDate: Option<string>, congress: Option<int>): (r: Result<Json>)
    ensures var resp := CallEndpoint(api, ListBillsEndpoint(congress), ListBillsParams(offset, limit, fromDate, toDate));
      && (resp.None? ==> r == Err(NotSubscriptable))
      && (r.Ok? <==> resp.Some? && resp.value.JObj? && "bills" in resp.value.fields)
      && (r.Ok? ==> r.value == resp.value.fields["bills"])
  {
    var resp := CallEndpoint(api, ListBillsEndpoint(congress), ListBillsParams(offset, limit, fromDate, toDate));
    GetFrom(resp, "bills")
  }

  function IntArg(args: map<string, Json>, name: string, default: int): Result<int> {
    if name !in args then Ok(default)
    else match args[name]
      case JInt(i) => Ok(i)
      case _ => Err(BadArgumentType(name))
  }

  function OptIntArg(args: map<string, Json>, name: string): Result<Option<int>> {
    if name !in args then Ok(None)
    else match args[name]
      case JNull => Ok(None)
      case JInt(i) => Ok(Some(i))
      case _ => Err(BadArgumentType(name))
  }

  function OptStrArg(args: map<string, Json>, name: string): Result<Option<string>> {
    if name !in args then Ok(None)
    else match args[name]
      case JNull => Ok(None)
      case JStr(s) => Ok(Some(s))
      case _ => Err(BadArgumentType(name))
  }

  /** The parameters of one `list_bills` call once its keywords are bound. */
  datatype ListBillsArgs = ListBillsArgs(offset: int, limit: int, fromDate: Option<string>,
                                         toDate: Option<string>, congress: Option<int>)

  /** Whether a supplied keyword value has a kind its parameter accepts. */
  predicate ArgFits(name: string, v: Json) {
    if name == "offset" || name == "limit" then v.JInt?
    else if name == "fromDate" || name == "toDate" then v.JStr? || v.JNull?
    else if name == "congress" then v.JInt? || v.JNull?
    else false
  }

  /** Binding the keywords of `list_bills(**args)`: an unknown keyword is a
      TypeError; a supplied value is used, and an absent one takes the
      parameter's default (0, 250, or None). */
  function BindListBills(args: map<string, Json>): (r: Result<ListBillsArgs>)
    ensures !(args.Keys <= ListBillsParameters) ==> r == Err(UnexpectedArgument)
    ensures r.Ok? <==> args.Keys <= ListBillsParameters && forall k :: k in args ==> ArgFits(k, args[k])
    ensures r.Ok? ==>
      && ("offset" in args ==> args["offset"] == JInt(r.value.offset))
      && ("offset" !in args ==> r.value.offset == DefaultOffset)
      && ("limit" in args ==> args["limit"] == JInt(r.value.limit))
      && ("limit" !in args ==> r.value.limit == DefaultLimit)
    ensures r.Ok? ==>
      && (r.value.fromDate.None? <==> "fromDate" !in args || args["fromDate"] == JNull)
      && (r.value.fromDate.Some? ==> args["fromDate"] == JStr(r.value.fromDate.value))
      && (r.value.toDate.None? <==> "toDate" !in args || args["toDate"] == JNull)
      && (r.value.toDate.Some? ==> args["toDate"] == JStr(r.value.toDate.value))
      && (r.value.congress.None? <==> "congress" !in args || args["congress"] == JNull)
      && (r.value.congress.Some? ==> args["congress"] == JInt(r.value.congress.value))
  {
    if !(args.Keys <= ListBillsParameters) then Err(UnexpectedArgument)
    else
      var offset :- IntArg(args, "offset", DefaultOffset);
      var limit :- IntArg(args, "limit", DefaultLimit);
      var fromDate :- OptStrArg(args, "fromDate");
      var toDate :- OptStrArg(args, "toDate");
      var congress :- OptIntArg(args, "congress");
      Ok(ListBillsArgs(offset, limit, fromDate, toDate, congress))
  }

  /** `list_bills(**args)`: the keywords are bound, then `list_bills` runs on
      the bound parameters. */
  function ListBillsCall(api: Api, args: map<string, Json>): (r: Result<Json>)
    ensures !(args.Keys <= ListBillsParameters) ==> r == Err(UnexpectedArgument)
    ensures args == map[] ==> r == ListBills(api, DefaultOffset, DefaultLimit, None, None, None)
    ensures BindListBills(args).Err? ==> r == Err(BindListBills(args).error)
    ensures BindListBills(args).Ok? ==>
      var b := BindListBills(args).value;
      r == ListBills(api, b.offset, b.limit, b.fromDate, b.toDate, b.congress)
  {
    var b :- BindListBills(args);
    ListBills(api, b.offset, b.limit, b.fromDate, b.toDate, b.congress)
  }

  // ---------------------------------------------------------------------
  // get_bill and get_bill_text endpoints

  /** The first piece of every bill endpoint. */
  const BillPath: string := "/bill"

  function BillEndpoint(congress: int, billType: string, billNumber: int): (e: string)
    ensures BillPath + "/" <= e
  {
    BillPath + "/" + IntToString(congress) + "/" + billType + "/" + IntToString(billNumber)
  }

  /** A bill endpoint consists of an empty piece, `bill`, the congress, the
      bill type and the bill number. */
  lemma BillEndpointPieces(congress: int, billType: string, billNumber: int)
    requires '/' !in billType
    ensures Split(BillEndpoint(congress, billType, billNumber)) ==
      ["", "bill", IntToString(congress), billType, IntToString(billNumber)]
  {
    var c, n := IntToString(congress), IntToString(billNumber);
    SplitAppend3(BillPath, c, billType, n);
    BillSplit();
    assert ["", "bill"] + [c, billType, n] == ["", "bill", c, billType, n];
  }

  lemma BillSplit()
    ensures Split(BillPath) == ["", "bill"]
  {
    SplitAppend("", "bill");
    assert "" + "/" + "bill" == BillPath;
  }

  /** The endpoint of `get_bill_text`: the bill's endpoint with a `/text` piece added. */
  function BillTextEndpoint(congress: int, billType: string, billNumber: int): (e: string)
    ensures Split(e) == Split(BillEndpoint(congress, billType, billNumber)) + ["text"]
  {
    SplitAppend(BillEndpoint(congress, billType, billNumber), "text");
    BillEndpoint(congress, billType, billNumber) + "/" + "text"
  }

  /** Reads (congress, billType, billNumber) back from the pieces of a bill endpoint. */
  function ParseBillEndpoint(pieces: seq<string>): Option<(int, string, int)> {
    if |pieces| == 5 && pieces[0] == "" && pieces[1] == "bill" then
      match (ParseInt(pieces[2]), ParseInt(pieces[4]))
      case (Some(c), Some(n)) => Some((c, pieces[3], n))
      case _ => None
    else None
  }

  lemma BillEndpointRoundTrip(congress: int, billType: string, billNumber: int)
    requires '/' !in billType
    ensures ParseBillEndpoint(Split(BillEndpoint(congress, billType, billNumber))) == Some((congress, billType, billNumber))
  {
    BillEndpointPieces(congress, billType, billNumber);
    ParseBillPieces(congress, billType, billNumber);
  }

  lemma ParseBillPieces(congress: int, billType: string, billNumber: int)
    ensures ParseBillEndpoint(["", "bill", IntToString(congress), billType, IntToString(billNumber)]) ==
      Some((congress, billType, billNumber))
  {
    ParseIntToString(congress);
    ParseIntToString(billNumber);
  }

  /** Bill endpoints begin with '/', so the URL built from them is the base
      URL followed by two slashes: the request goes to `.../v3//bill/...`. */
  lemma BillUrlDoubleSlash(congress: int, billType: string, billNumber: int)
    ensures Url(BillEndpoint(congress, billType, billNumber)) == BaseUrl + "/" + BillEndpoint(congress, billType, billNumber)
    ensures Url(BillEndpoint(congress, billType, billNumber))[|BaseUrl|..|BaseUrl| + 6] == "//bill"
  {
    var e := BillEndpoint(congress, billType, billNumber);
    assert e[..|BillPath| + 1] == BillPath + "/";
    assert e[..5] == BillPath;
    UrlOfRooted(e);
    SlashThen(BaseUrl, e, 5);
  }

  /** An endpoint rooted at '/' never starts with the base URL. */
  lemma UrlOfRooted(e: string)
    requires |e| > 0 && e[0] == '/'
    ensures Url(e) == BaseUrl + "/" + e
  {
    assert BaseUrl[0] == 'h';
    assert !(BaseUrl <= e);
  }

  lemma SlashThen(a: string, e: string, n: nat)
    requires n <= |e|
    ensures (a + "/" + e)[|a|..|a| + n + 1] == "/" + e[..n]
  {
  }

  /** `get_bill(congress, billType, billNumber)`: the answer as call_endpoint gives it. */
  function GetBill(api: Api, congress: int, billType: string, billNumber: int): (r: Option<Json>)
    ensures r.Some? <==> api(Url(BillEndpoint(congress, billType, billNumber)), map[]).status == 200
    ensures r.Some? ==> r.value == api(Url(BillEndpoint(congress, billType, billNumber)), map[]).body
  {
    CallEndpoint(api, BillEndpoint(congress, billType, billNumber), map[])
  }

  // ---------------------------------------------------------------------
  // get_bill_text: version and format selection

  /** One entry of `textVersions`: its date string and the whole JSON object. */
  datatype Version = Version(date: string, fields: map<string, Json>)

  /** `v['date']` on one entry: TypeError for an entry that is not a dict,
      KeyError without a `date`. */
  function DecodeVersion(j: Json): (r: Result<Version>)
    ensures r.Ok? ==> j == JObj(r.value.fields) && "date" in r.value.fields && r.value.fields["date"] == JStr(r.value.date)
    ensures !j.JObj? ==> r == Err(NotSubscriptable)
    ensures j.JObj? && "date" !in j.fields ==> r == Err(KeyMissing("date"))
    ensures j.JObj? && "date" in j.fields && j.fields["date"].JStr? ==> r == Ok(Version(j.fields["date"].s, j.fields))
  {
    var date :- Get(j, "date");
    if date.JStr? then Ok(Version(date.s, j.fields)) else Err(Malformed)
  }

  /** The `textVersions` list, each entry with a string `date`. */
  function DecodeVersionList(items: seq<Json>): (r: Result<seq<Version>>)
    ensures r.Ok? <==> forall i :: 0 <= i < |items| ==> DecodeVersion(items[i]).Ok?
    ensures r.Ok? ==> |r.value| == |items|
    ensures r.Ok? ==> forall i :: 0 <= i < |items| ==> DecodeVersion(items[i]) == Ok(r.value[i])
    ensures r.Err? ==> exists k :: (&& 0 <= k < |items| && DecodeVersion(items[k]) == Err(r.error)
                                    && forall i :: 0 <= i < k ==> DecodeVersion(items[i]).Ok?)
  {
    if items == [] then Ok([])
    else
      match DecodeVersion(items[0])
      case Err(e) => Err(e)
      case Ok(v) =>
        var rest := DecodeVersionList(items[1..]);
        assert forall i :: 1 <= i < |items| ==> items[i] == items[1..][i - 1];
        match rest
        case Err(e) =>
          var k :| 0 <= k < |items| - 1 && DecodeVersion(items[1..][k]) == Err(e) &&
            forall i :: 0 <= i < k ==> DecodeVersion(items[1..][i]).Ok?;
          assert DecodeVersion(items[k + 1]) == Err(e);
          Err(e)
        case Ok(vs) => Ok([v] + vs)
  }

  /** Reading `textVersions`.  A list is decoded entry by entry.  Anything
      else fails where the code first touches it: with `asOf` the
      comprehension iterates it, so an empty string or dict gives no versions
      and any other value raises TypeError; without `asOf`, `versions.sort`
      raises AttributeError. */
  function DecodeVersions(j: Json, asOf: Option<string>): (r: Result<seq<Version>>)
    ensures j.JArr? ==> (r.Ok? <==> forall i :: 0 <= i < |j.items| ==> DecodeVersion(j.items[i]).Ok?)
    ensures r.Ok? && j.JArr? ==> |r.value| == |j.items|
    ensures r.Ok? && j.JArr? ==> forall i :: 0 <= i < |j.items| ==> DecodeVersion(j.items[i]) == Ok(r.value[i])
    ensures !j.JArr? && asOf.None? ==> r == Err(AttributeMissing)
    ensures !j.JArr? && asOf.Some? ==> (r.Ok? <==> j == JStr("") || j == JObj(map[]))
    ensures !j.JArr? && asOf.Some? && r.Ok? ==> r.value == []
    ensures !j.JArr? && asOf.Some? && r.Err? ==> r.error == NotSubscriptable
  {
    if j.JArr? then DecodeVersionList(j.items)
    else if asOf.None? then Err(AttributeMissing)
    else if j == JStr("") || j == JObj(map[]) then Ok([])
    else Err(NotSubscriptable)
  }

  /** `[v for v in versions if v['date'] <= asOf]`: the versions not after
      `asOf`, in their original order. */
  function FilterAsOf(vs: seq<Version>, asOf: string): (r: seq<Version>)
    ensures |r| <= |vs|
    ensures forall i :: 0 <= i < |r| ==> r[i] in vs && LessEq(r[i].date, asOf)
    ensures forall v :: v in vs && LessEq(v.date, asOf) ==> v in r
  {
    if vs == [] then []
    else if LessEq(vs[0].date, asOf) then [vs[0]] + FilterAsOf(vs[1..], asOf)
    else FilterAsOf(vs[1..], asOf)
  }

  /** The filter keeps a lone version exactly when it is not after `asOf`. */
  lemma FilterAsOfSingle(v: Version, asOf: string)
    ensures FilterAsOf([v], asOf) == if LessEq(v.date, asOf) then [v] else []
  {
    assert [v][1..] == [];
  }

  /** The filter distributes over concatenation, so it keeps the order and
      the multiplicity of the versions it keeps. */
  lemma {:induction false} FilterAsOfAppend(x: seq<Version>, y: seq<Version>, asOf: string)
    ensures FilterAsOf(x + y, asOf) == FilterAsOf(x, asOf) + FilterAsOf(y, asOf)
    decreases |x|
  {
    if x == [] {
      assert x + y == y;
    } else {
      assert (x + y)[0] == x[0];
      assert (x + y)[1..] == x[1..] + y;
      FilterAsOfAppend(x[1..], y, asOf);
      if LessEq(x[0].date, asOf) {
        assert [x[0]] + (FilterAsOf(x[1..], asOf) + FilterAsOf(y, asOf)) ==
          ([x[0]] + FilterAsOf(x[1..], asOf)) + FilterAsOf(y, asOf);
      }
    }
  }

  /** `vs[k]` is what a stable sort by date, descending, puts first: a
      version with the greatest date, and the earliest such in the list. */
  predicate IsLatest(vs: seq<Version>, k: int) {
    && 0 <= k < |vs|
    && (forall j :: 0 <= j < |vs| ==> LessEq(vs[j].date, vs[k].date))
    && (forall j :: 0 <= j < k ==> Less(vs[j].date, vs[k].date))
  }

  /** At most one position is the head of the sorted list. */
  lemma LatestUnique(vs: seq<Version>, i: int, j: int)
    requires IsLatest(vs, i) && IsLatest(vs, j)
    ensures i == j
  {
    if i < j {
      assert Less(vs[i].date, vs[j].date);
      assert LessEq(vs[j].date, vs[i].date);
      LessAsymmetric(vs[i].date, vs[j].date);
      LessIrreflexive(vs[i].date);
    } else if j < i {
      assert Less(vs[j].date, vs[i].date);
      assert LessEq(vs[i].date, vs[j].date);
      LessAsymmetric(vs[j].date, vs[i].date);
      LessIrreflexive(vs[j].date);
    }
  }

  /** The head of the list after `versions.sort(key=date, reverse=True)`. */
  function LatestIndex(vs: seq<Version>): (k: nat)
    requires |vs| > 0
    ensures IsLatest(vs, k)
    decreases |vs|
  {
    if |vs| == 1 then 0
    else
      var init := vs[..|vs| - 1];
      var k := LatestIndex(init);
      var last := |vs| - 1;
      assert forall j :: 0 <= j < last ==> vs[j] == init[j];
      if Less(vs[k].date, vs[last].date) then
        LatestStep(vs, k, last);
        last
      else
        LessTotalEq(vs[last].date, vs[k].date);
        k
  }

  lemma LessTotalEq(a: string, b: string)
    requires !Less(b, a)
    ensures LessEq(a, b)
  {
    if a != b {
      LessTotal(a, b);
    }
  }

  /** A later version with a strictly greater date than the current head of a
      prefix becomes the head of the longer prefix. */
  lemma LatestStep(vs: seq<Version>, k: int, last: int)
    requires 0 <= k < last < |vs|
    requires forall j :: 0 <= j < last ==> LessEq(vs[j].date, vs[k].date)
    requires Less(vs[k].date, vs[last].date)
    ensures forall j :: 0 <= j < last ==> Less(vs[j].date, vs[last].date)
  {
    forall j | 0 <= j < last
      ensures Less(vs[j].date, vs[last].date)
    {
      if vs[j].date != vs[k].date {
        LessTransitive(vs[j].date, vs[k].date, vs[last].date);
      }
    }
  }

  /** The version the code reads after sorting: a loop over the list keeping
      the first version with the greatest date seen so far. */
  method LatestVersion(vs: seq<Version>) returns (k: int)
    requires |vs| > 0
    ensures IsLatest(vs, k)
    ensures k == LatestIndex(vs)
  {
    k := 0;
    var i := 1;
    while i < |vs|
      invariant 0 <= k < i <= |vs|
      invariant forall j :: 0 <= j < i ==> LessEq(vs[j].date, vs[k].date)
      invariant forall j :: 0 <= j < k ==> Less(vs[j].date, vs[k].date)
    {
      if Less(vs[k].date, vs[i].date) {
        LatestStep(vs, k, i);
        k := i;
      } else {
        LessTotalEq(vs[i].date, vs[k].date);
      }
      i := i + 1;
    }
    LatestUnique(vs, k, LatestIndex(vs));
  }

  /** One pass of the format loop: a format of another type, or one whose
      fetch fails, gives None (the loop goes on); a format of the requested
      type whose fetch answers 200 gives its text. */
  function TryFormat(f: Json, format: string, web: Web): (r: Result<Option<string>>)
    ensures r.Ok? && r.value.Some? <==>
      && f.JObj? && "type" in f.fields && f.fields["type"] == JStr(format)
      && "url" in f.fields && f.fields["url"].JStr? && web(f.fields["url"].s).status == 200
    ensures r.Ok? && r.value.Some? ==> r.value.value == web(f.fields["url"].s).text
    ensures f.JObj? && "type" in f.fields && f.fields["type"] != JStr(format) ==> r == Ok(None)
    ensures (&& f.JObj? && "type" in f.fields && f.fields["type"] == JStr(format) && "url" in f.fields
             && f.fields["url"].JStr? && web(f.fields["url"].s).status != 200) ==> r == Ok(None)
    ensures !f.JObj? ==> r == Err(NotSubscriptable)
    ensures f.JObj? && "type" !in f.fields ==> r == Err(KeyMissing("type"))
    ensures f.JObj? && "type" in f.fields && f.fields["type"] == JStr(format) && "url" !in f.fields ==>
      r == Err(KeyMissing("url"))
  {
    var kind :- Get(f, "type");
    if kind != JStr(format) then Ok(None)
    else
      var url :- Get(f, "url");
      if !url.JStr? then Err(Malformed)
      else
        var resp := web(url.s);
        if resp.status == 200 then Ok(Some(resp.text)) else Ok(None)
  }

  /** The outcome of the format loop: that of the first format whose pass does
      not give None, or None when every pass gives None. */
  function FirstFetch(fs: seq<Json>, format: string, web: Web): (r: Result<Option<string>>)
    ensures r == Ok(None) <==> forall j :: 0 <= j < |fs| ==> TryFormat(fs[j], format, web) == Ok(None)
    ensures r != Ok(None) ==>
      exists k :: 0 <= k < |fs| && r == TryFormat(fs[k], format, web) &&
        forall j :: 0 <= j < k ==> TryFormat(fs[j], format, web) == Ok(None)
  {
    if fs == [] then Ok(None)
    else
      var t := TryFormat(fs[0], format, web);
      if t != Ok(None) then t
      else
        var r := FirstFetch(fs[1..], format, web);
        assert forall j :: 1 <= j < |fs| ==> fs[j] == fs[1..][j - 1];
        if r != Ok(None) then
          var k :| 0 <= k < |fs| - 1 && r == TryFormat(fs[1..][k], format, web) &&
            forall j :: 0 <= j < k ==> TryFormat(fs[1..][j], format, web) == Ok(None);
          assert r == TryFormat(fs[k + 1], format, web);
          r
        else r
  }

  /** A format entry the loop can read: a dict with a `type` and a string `url`. */
  predicate ReadableFormat(f: Json) {
    f.JObj? && "type" in f.fields && "url" in f.fields && f.fields["url"].JStr?
  }

  /** A format of the requested type whose fetch answers 200. */
  predicate Fetchable(f: Json, format: string, web: Web) {
    ReadableFormat(f) && f.fields["type"] == JStr(format) && web(f.fields["url"].s).status == 200
  }

  /** Over readable formats, the loop gives the text of the first format of
      the requested type that answers 200, and None when there is none: a
      format of another type, or one whose fetch fails, moves on to the next. */
  lemma FirstFetchReadable(fs: seq<Json>, format: string, web: Web)
    requires forall i :: 0 <= i < |fs| ==> ReadableFormat(fs[i])
    ensures (forall i :: 0 <= i < |fs| ==> !Fetchable(fs[i], format, web)) ==> FirstFetch(fs, format, web) == Ok(None)
    ensures forall i :: (0 <= i < |fs| && Fetchable(fs[i], format, web) &&
                         (forall j :: 0 <= j < i ==> !Fetchable(fs[j], format, web))) ==>
      FirstFetch(fs, format, web) == Ok(Some(web(fs[i].fields["url"].s).text))
  {
    forall i | 0 <= i < |fs| && !Fetchable(fs[i], format, web)
      ensures TryFormat(fs[i], format, web) == Ok(None)
    {
    }
    forall i | 0 <= i < |fs| && Fetchable(fs[i], format, web) &&
        (forall j :: 0 <= j < i ==> !Fetchable(fs[j], format, web))
      ensures FirstFetch(fs, format, web) == Ok(Some(web(fs[i].fields["url"].s).text))
    {
      assert TryFormat(fs[i], format, web) != Ok(None);
      assert FirstFetch(fs, format, web) != Ok(None);
      var k :| 0 <= k < |fs| && FirstFetch(fs, format, web) == TryFormat(fs[k], format, web) &&
        forall j :: 0 <= j < k ==> TryFormat(fs[j], format, web) == Ok(None);
      assert TryFormat(fs[k], format, web) != Ok(None);
      assert Fetchable(fs[k], format, web);
    }
  }

  /** The loop over the formats of the chosen version, returning early on the
      first text fetched. */
  method FirstText(fs: seq<Json>, format: string, web: Web) returns (r: Result<Option<string>>)
    ensures r == FirstFetch(fs, format, web)
  {
    var i := 0;
    while i < |fs|
      invariant 0 <= i <= |fs|
      invariant FirstFetch(fs[i..], format, web) == FirstFetch(fs, format, web)
    {
      var t := TryFormat(fs[i], format, web);
      if t != Ok(None) {
        return t;
      }
      assert fs[i..][1..] == fs[i + 1..];
      i := i + 1;
    }
    r := Ok(None);
  }

  /** What `get_bill_text` returns: the text of the first fetchable format of
      the requested type in the latest version not after `asOf`. */
  function BillText(api: Api, web: Web, congress: int, billType: string, billNumber: int,
                    asOf: Option<string> := None, format: string := DefaultTextFormat): (r: Result<Option<string>>)
    ensures CallEndpoint(api, BillTextEndpoint(congress, billType, billNumber), map[]).None? ==> r == Err(NotSubscriptable)
    ensures var resp := CallEndpoint(api, BillTextEndpoint(congress, billType, billNumber), map[]);
      resp.Some? && resp.value.JObj? && "textVersions" !in resp.value.fields ==> r == Err(KeyMissing("textVersions"))
  {
    var resp := CallEndpoint(api, BillTextEndpoint(congress, billType, billNumber), map[]);
    var listing :- GetFrom(resp, "textVersions");
    var all :- DecodeVersions(listing, asOf);
    var versions := Kept(all, asOf);
    if |versions| == 0 then Err(IndexOutOfRange)
    else VersionText(versions[LatestIndex(versions)], format, web)
  }

  /** The versions left after the `asOf` filter, which is skipped without `asOf`. */
  function Kept(all: seq<Version>, asOf: Option<string>): (vs: seq<Version>)
    ensures asOf.None? ==> vs == all
    ensures asOf.Some? ==> forall i :: 0 <= i < |vs| ==> vs[i] in all && LessEq(vs[i].date, asOf.value)
    ensures asOf.Some? ==> forall v :: v in all && LessEq(v.date, asOf.value) ==> v in vs
  {
    if asOf.Some? then FilterAsOf(all, asOf.value) else all
  }

  /** `for text_format in versions[0]['formats']`: the formats of one
      version, tried in order.  Iterating an empty string or an empty dict
      runs no pass and gives None; iterating any other value that is not a
      list raises TypeError, either at once or at the first `['type']`. */
  function VersionText(v: Version, format: string, web: Web): (r: Result<Option<string>>)
    ensures "formats" !in v.fields ==> r == Err(KeyMissing("formats"))
    ensures "formats" in v.fields && v.fields["formats"].JArr? ==> r == FirstFetch(v.fields["formats"].items, format, web)
    ensures "formats" in v.fields && !v.fields["formats"].JArr? ==>
      && (r.Ok? <==> v.fields["formats"] == JStr("") || v.fields["formats"] == JObj(map[]))
      && (r.Ok? ==> r.value.None?)
      && (r.Err? ==> r.error == NotSubscriptable)
  {
    var formats :- Get(JObj(v.fields), "formats");
    if formats.JArr? then FirstFetch(formats.items, format, web)
    else if formats == JStr("") || formats == JObj(map[]) then Ok(None)
    else Err(NotSubscriptable)
  }

  /** Once the text versions decode, `get_bill_text` raises IndexError when
      no version is kept, and otherwise tries the formats of the version a
      stable date-descending sort of the kept versions puts first. */
  lemma BillTextLatest(api: Api, web: Web, congress: int, billType: string, billNumber: int,
                       asOf: Option<string>, format: string, all: seq<Version>)
    requires GetFrom(CallEndpoint(api, BillTextEndpoint(congress, billType, billNumber), map[]), "textVersions").Ok?
    requires DecodeVersions(GetFrom(CallEndpoint(api, BillTextEndpoint(congress, billType, billNumber), map[]), "textVersions").value, asOf) == Ok(all)
    ensures |Kept(all, asOf)| == 0 ==> BillText(api, web, congress, billType, billNumber, asOf, format) == Err(IndexOutOfRange)
    ensures forall k :: IsLatest(Kept(all, asOf), k) ==>
      BillText(api, web, congress, billType, billNumber, asOf, format) == VersionText(Kept(all, asOf)[k], format, web)
  {
    var vs := Kept(all, asOf);
    forall k | IsLatest(vs, k)
      ensures BillText(api, web, congress, billType, billNumber, asOf, format) == VersionText(vs[k], format, web)
    {
      LatestUnique(vs, k, LatestIndex(vs));
    }
  }

  /** `get_bill_text(...)`: fetch the list of text versions, keep those not
      after `asOf`, take the latest, then try its formats in order. */
  method GetBillText(api: Api, web: Web, congress: int, billType: string, billNumber: int,
                     asOf: Option<string> := None, format: string := DefaultTextFormat)
    returns (r: Result<Option<string>>)
    ensures r == BillText(api, web, congress, billType, billNumber, asOf, format)
  {
    var resp := CallEndpoint(api, BillTextEndpoint(congress, billType, billNumber), map[]);
    var listing :- GetFrom(resp, "textVersions");
    var versions :- DecodeVersions(listing, asOf);
    if asOf.Some? {
      versions := FilterAsOf(versions, asOf.value);
    }
    if |versions| == 0 {
      return Err(IndexOutOfRange);
    }
    var k := LatestVersion(versions);
    var formats :- Get(JObj(versions[k].fields), "formats");
    if formats.JArr? {
      r := FirstText(formats.items, format, web);
    } else if formats == JStr("") || formats == JObj(map[]) {
      r := Ok(None);
    } else {
      r := Err(NotSubscriptable);
    }
  }

  // ---------------------------------------------------------------------
  // get_members

  /** The endpoint of `get_members`: `/member`, then `/congress/<c>` when a
      congress is given, then `/<state>` when a state is given, and
      `/<district>` only under a state. */
  function MembersEndpoint(congress: Option<int>, state: Option<string>, district: Option<int>): (e: string)
    ensures "/member" <= e
  {
    var e1 := MembersPrefix(congress);
    if state.Some? then
      var e2 := e1 + "/" + state.value;
      if district.Some? then e2 + "/" + IntToString(district.value) else e2
    else e1
  }

  /** `/member`, followed by `/congress/<c>` when a congress is given. */
  function MembersPrefix(congress: Option<int>): (e: string)
    ensures "/member" <= e
  {
    if congress.Some? then "/member" + "/congress/" + IntToString(congress.value) else "/member"
  }

  /** A district without a state is ignored. */
  lemma MembersDistrictNeedsState(congress: Option<int>, district: Option<int>)
    ensures MembersEndpoint(congress, None, district) == MembersEndpoint(congress, None, None)
  {
  }

  /** Reads (congress, state, district) back from the pieces of a members endpoint. */
  function ParseMembersEndpoint(pieces: seq<string>): Option<(Option<int>, Option<string>, Option<int>)> {
    if |pieces| < 2 || pieces[0] != "" || pieces[1] != "member" then None
    else
      var rest := pieces[2..];
      if |rest| >= 2 && rest[0] == "congress" then
        match ParseInt(rest[1])
        case None => None
        case Some(c) => ParseMembersTail(Some(c), rest[2..])
      else ParseMembersTail(None, rest)
  }

  function ParseMembersTail(congress: Option<int>, rest: seq<string>): Option<(Option<int>, Option<string>, Option<int>)> {
    if |rest| == 0 then Some((congress, None, None))
    else if |rest| == 1 then Some((congress, Some(rest[0]), None))
    else if |rest| == 2 then
      match ParseInt(rest[1])
      case None => None
      case Some(d) => Some((congress, Some(rest[0]), Some(d)))
    else None
  }

  /** A state as the schema describes it: a two-letter code. */
  predicate IsStateCode(s: string) {
    |s| == 2 && '/' !in s
  }

  /** For a two-letter state, the endpoint determines its arguments: the
      congress piece is present exactly when a congress is given, the state
      piece exactly when a state is given, and the district piece exactly when
      both a state and a district are given. */
  lemma MembersEndpointRoundTrip(congress: Option<int>, state: Option<string>, district: Option<int>)
    requires state.Some? ==> IsStateCode(state.value)
    ensures ParseMembersEndpoint(Split(MembersEndpoint(congress, state, district))) ==
      Some((congress, state, if state.Some? then district else None))
  {
    MembersEndpointPieces(congress, state, district);
    ParseMembersPieces(congress, state, district);
  }

  function MembersTailPieces(state: Option<string>, district: Option<int>): seq<string> {
    if state.Some? then [state.value] + (if district.Some? then [IntToString(district.value)] else []) else []
  }

  lemma ParseMembersPieces(congress: Option<int>, state: Option<string>, district: Option<int>)
    requires state.Some? ==> IsStateCode(state.value)
    ensures ParseMembersEndpoint(MembersHeadPieces(congress) + MembersTailPieces(state, district)) ==
      Some((congress, state, if state.Some? then district else None))
  {
    var tail := MembersTailPieces(state, district);
    ParseMembersTailPieces(congress, state, district);
    var pieces := MembersHeadPieces(congress) + tail;
    assert pieces[0] == "" && pieces[1] == "member";
    if congress.Some? {
      ParseIntToString(congress.value);
      assert pieces[2..] == ["congress", IntToString(congress.value)] + tail;
      assert pieces[2..][2..] == tail;
    } else {
      assert pieces[2..] == tail;
      assert |tail| >= 2 ==> tail[0] == state.value && tail[0] != "congress";
    }
  }

  lemma ParseMembersTailPieces(congress: Option<int>, state: Option<string>, district: Option<int>)
    ensures ParseMembersTail(congress, MembersTailPieces(state, district)) ==
      Some((congress, state, if state.Some? then district else None))
  {
    if state.Some? && district.Some? {
      ParseIntToString(district.value);
    }
  }

  function MembersHeadPieces(congress: Option<int>): seq<string> {
    if congress.Some? then ["", "member", "congress", IntToString(congress.value)] else ["", "member"]
  }

  lemma MembersEndpointPieces(congress: Option<int>, state: Option<string>, district: Option<int>)
    requires state.Some? ==> '/' !in state.value
    ensures Split(MembersEndpoint(congress, state, district)) ==
      MembersHeadPieces(congress) + MembersTailPieces(state, district)
  {
    MembersHeadSplit(congress);
    if state.Some? && district.Some? {
      MembersStateDistrictPieces(congress, state.value, district.value);
    } else if state.Some? {
      MembersStatePieces(congress, state.value, district);
    } else {
      MembersNoStatePieces(congress, district);
    }
  }

  lemma MembersStateDistrictPieces(congress: Option<int>, state: string, district: int)
    requires '/' !in state
    requires Split(MembersPrefix(congress)) == MembersHeadPieces(congress)
    ensures Split(MembersEndpoint(congress, Some(state), Some(district))) ==
      MembersHeadPieces(congress) + MembersTailPieces(Some(state), Some(district))
  {
    var e1 := MembersPrefix(congress);
    var d := IntToString(district);
    assert MembersEndpoint(congress, Some(state), Some(district)) == e1 + "/" + state + "/" + d;
    SplitAppend2(e1, state, d);
    assert MembersTailPieces(Some(state), Some(district)) == [state, d];
  }

  lemma MembersStatePieces(congress: Option<int>, state: string, district: Option<int>)
    requires '/' !in state && district.None?
    requires Split(MembersPrefix(congress)) == MembersHeadPieces(congress)
    ensures Split(MembersEndpoint(congress, Some(state), district)) ==
      MembersHeadPieces(congress) + MembersTailPieces(Some(state), district)
  {
    var e1 := MembersPrefix(congress);
    SplitAppend(e1, state);
    assert MembersEndpoint(congress, Some(state), district) == e1 + "/" + state;
    assert MembersTailPieces(Some(state), district) == [state];
  }

  lemma MembersNoStatePieces(congress: Option<int>, district: Option<int>)
    requires Split(MembersPrefix(congress)) == MembersHeadPieces(congress)
    ensures Split(MembersEndpoint(congress, None, district)) ==
      MembersHeadPieces(congress) + MembersTailPieces(None, district)
  {
    assert MembersEndpoint(congress, None, district) == MembersPrefix(congress);
    assert MembersTailPieces(None, district) == [];
    assert MembersHeadPieces(congress) + [] == MembersHeadPieces(congress);
  }

  lemma MembersHeadSplit(congress: Option<int>)
    ensures Split(MembersPrefix(congress)) == MembersHeadPieces(congress)
  {
    if congress.Some? {
      MemberCongressSplit(IntToString(congress.value));
    } else {
      MemberSplit();
    }
  }

  lemma MemberSplit()
    ensures Split("/member") == ["", "member"]
  {
    SplitAppend("", "member");
    assert "" + "/" + "member" == "/member";
  }

  lemma MemberCongressPrefixSplit()
    ensures Split("/member/congress") == ["", "member", "congress"]
  {
    MemberSplit();
    SplitAppend("/member", "congress");
    assert "/member" + "/" + "congress" == "/member/congress";
  }

  lemma MemberCongressConcat(c: string)
    ensures "/member" + "/congress/" + c == "/member/congress" + "/" + c
  {
    assert "/member" + "/congress/" == "/member/congress" + "/";
  }

  lemma MemberCongressSplit(c: string)
    requires '/' !in c
    ensures Split("/member" + "/congress/" + c) == ["", "member", "congress", c]
  {
    MemberCongressConcat(c);
    SplitAppend("/member/congress", c);
    MemberCongressPrefixSplit();
  }

  /** Why the state must be a state code: a state named "congress" with a
      district gives the same endpoint as a congress alone. */
  lemma MembersEndpointAmbiguity()
    ensures MembersEndpoint(None, Some("congress"), Some(5)) == MembersEndpoint(Some(5), None, None)
  {
  }

  /** `get_members(...)`: the `members` entry of the answer to the members
      endpoint, with `currentMember` as the only query parameter. */
  function GetMembers(api: Api, congress: Option<int> := None, state: Option<string> := None,
                      district: Option<int> := None, current: bool := true): (r: Result<Json>)
    ensures var resp := CallEndpoint(api, MembersEndpoint(congress, state, district), map["currentMember" := JBool(current)]);
      && (resp.None? ==> r == Err(NotSubscriptable))
      && (r.Ok? <==> resp.Some? && resp.value.JObj? && "members" in resp.value.fields)
      && (r.Ok? ==> r.value == resp.value.fields["members"])
  {
    GetFrom(CallEndpoint(api, MembersEndpoint(congress, state, district), map["currentMember" := JBool(current)]), "members")
  }
}
