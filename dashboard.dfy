/** The agent dashboard: how it styles and labels what the API sends, how it maps
    the JSON records it fetches, its pagination and selection state, and the guards
    that refuse message edits on a resolved ticket. Fetching and rendering are I/O:
    the state changes take the decoded response as a parameter, and the guards
    return the request they would send or the notice they would show. */
module Dashboard {
  import opened Common
  import opened TicketSchema
  import opened MessageSchema
  import opened TicketRepository
  import Postgres
  import TicketService
  import MessageService

  // ---------------------------------------------------------------------------
  // Sentiment badge

  const PositiveStyle: string := "bg-emerald-100 text-emerald-800 bg-emerald-900/30 text-emerald-400"
  const NeutralStyle: string := "bg-slate-100 text-slate-700 bg-slate-700/50 text-slate-300"
  const NegativeStyle: string := "bg-red-100 text-red-800 bg-red-900/30 text-red-400"

  /** The badge style for a sentiment score; None is NaN, which compares false both
      times and so falls to the red style. */
  function SentimentStyle(score: Option<int>): (r: string)
    ensures r == PositiveStyle <==> score.Some? && score.value > 5
    ensures r == NeutralStyle <==> score.Some? && score.value == 5
    ensures r == NegativeStyle <==> score.None? || score.value < 5
  {
    if score.Some? && score.value > 5 then PositiveStyle
    else if score.Some? && score.value == 5 then NeutralStyle
    else NegativeStyle
  }

  // ---------------------------------------------------------------------------
  // humanizeEnum

  predicate IsAsciiUpper(c: char) { 'A' <= c <= 'Z' }
  predicate IsAsciiLower(c: char) { 'a' <= c <= 'z' }

  /** A letter or digit: a word character of a regular expression other than `_`. */
  predicate IsAlnum(c: char) { IsAsciiUpper(c) || IsAsciiLower(c) || IsDigit(c) }

  /** `\w`. */
  predicate IsWordChar(c: char) { IsAlnum(c) || c == '_' }

  function LowerAscii(c: char): char
  {
    if IsAsciiUpper(c) then (c as int + 32) as char else c
  }

  function UpperAscii(c: char): char
  {
    if IsAsciiLower(c) then (c as int - 32) as char else c
  }

  /** `.replace(/_/g, " ")`. */
  function SpacesForUnderscores(s: string): (r: string)
  {
    seq(|s|, i requires 0 <= i < |s| => if s[i] == '_' then ' ' else s[i])
  }

  /** `.toLowerCase()` on ASCII letters. */
  function Lowered(s: string): (r: string)
  {
    seq(|s|, i requires 0 <= i < |s| => LowerAscii(s[i]))
  }

  /** `.replace(/\b\w/g, (c) => c.toUpperCase())`: a word character with no word
      character before it is upper-cased. */
  function CapitalizedWords(s: string): (r: string)
  {
    seq(|s|, i requires 0 <= i < |s| =>
      if IsWordChar(s[i]) && (i == 0 || !IsWordChar(s[i - 1])) then UpperAscii(s[i]) else s[i])
  }

  /** Position `i` of an enum name begins a word: a letter or digit after nothing, an
      underscore, or any other separator. */
  predicate StartsWord(s: string, i: nat)
    requires i < |s|
  {
    IsAlnum(s[i]) && (i == 0 || !IsAlnum(s[i - 1]))
  }

  /** `humanizeEnum`: each underscore becomes a space, the first letter of each word
      is upper case and every other letter lower case. */
  function HumanizeEnum(value: string): (r: string)
    ensures |r| == |value|
    ensures forall i :: 0 <= i < |value| ==>
      r[i] == if value[i] == '_' then ' '
              else if StartsWord(value, i) then UpperAscii(value[i])
              else LowerAscii(value[i])
  {
    var u := SpacesForUnderscores(value);
    var l := Lowered(u);
    var r := CapitalizedWords(l);
    assert forall i :: 0 <= i < |value| ==> (IsWordChar(l[i]) <==> IsAlnum(value[i]));
    r
  }

  /** The result never holds an underscore. */
  lemma HumanizeHasNoUnderscore(value: string)
    ensures forall i :: 0 <= i < |HumanizeEnum(value)| ==> HumanizeEnum(value)[i] != '_'
  {
    forall i | 0 <= i < |value| ensures HumanizeEnum(value)[i] != '_' {
      if value[i] != '_' {
        assert UpperAscii(value[i]) != '_' && LowerAscii(value[i]) != '_';
      }
    }
  }

  /** Humanizing twice is humanizing once: the words sit where they sat, and each
      letter already has the case it gets. */
  lemma HumanizeIdempotent(value: string)
    ensures HumanizeEnum(HumanizeEnum(value)) == HumanizeEnum(value)
  {
    var r := HumanizeEnum(value);
    var rr := HumanizeEnum(r);
    assert forall i :: 0 <= i < |value| ==> (IsAlnum(r[i]) <==> IsAlnum(value[i]));
    forall i | 0 <= i < |value| ensures rr[i] == r[i] {
      assert r[i] != '_';
      if StartsWord(value, i) {
        assert StartsWord(r, i);
      } else {
        assert !StartsWord(r, i);
      }
    }
  }

  /** The dashboard's fixed category labels. */
  function CategoryLabel(s: string): Option<string>
  {
    if s == "BILLING" then Some("Billing")
    else if s == "TECHNICAL" then Some("Technical")
    else if s == "FEATURE_REQUEST" then Some("Feature Request")
    else None
  }

  /** `categoryLabels[c] ?? humanizeEnum(c)`. */
  function CategoryDisplay(s: string): string
  {
    Coalesce(CategoryLabel(s), HumanizeEnum(s))
  }

  lemma HumanizeBilling()
    ensures HumanizeEnum("BILLING") == "Billing"
  {
    var s := "BILLING";
    assert StartsWord(s, 0);
    forall i | 1 <= i < |s| ensures !StartsWord(s, i) { }
  }

  lemma HumanizeTechnical()
    ensures HumanizeEnum("TECHNICAL") == "Technical"
  {
    var s := "TECHNICAL";
    assert StartsWord(s, 0);
    forall i | 1 <= i < |s| ensures !StartsWord(s, i) { }
  }

  /** The underscore separates two words, each capitalised. */
  lemma HumanizeFeatureRequest()
    ensures HumanizeEnum("FEATURE_REQUEST") == "Feature Request"
  {
    var s := "FEATURE_REQUEST";
    assert StartsWord(s, 0) && StartsWord(s, 8);
    forall i | 1 <= i < |s| && i != 8 ensures !StartsWord(s, i) { }
  }

  /** The label table agrees with `humanizeEnum` on every category, so a category is
      shown the same with or without it. */
  lemma CategoryLabelsAreHumanized(s: string)
    ensures CategoryDisplay(s) == HumanizeEnum(s)
  {
    HumanizeBilling();
    HumanizeTechnical();
    HumanizeFeatureRequest();
  }

  /** Every category the backend stores is shown by its humanized name. */
  lemma CategoryNamesDisplay(c: Category)
    ensures CategoryDisplay(CategoryName(c)) == HumanizeEnum(CategoryName(c))
    ensures CategoryLabel(CategoryName(c)).Some?
  {
    CategoryLabelsAreHumanized(CategoryName(c));
  }

  // ---------------------------------------------------------------------------
  // JSON values and record mapping

  /** A JSON-decoded value as the mapping sees it. Numbers are integers; objects and
      arrays other than `[]` are not looked into. */
  datatype JsValue =
    | JsUndefined
    | JsNull
    | JsBool(b: bool)
    | JsNumber(n: int)
    | JsString(s: string)
    | JsObject
    | JsEmptyArray

  type Record = map<string, JsValue>

  /** `e[key]`: a missing key reads as `undefined`. */
  function Get(e: Record, key: string): JsValue
  {
    if key in e then e[key] else JsUndefined
  }

  predicate Nullish(v: JsValue) { v.JsUndefined? || v.JsNull? }

  /** `a ?? b`. */
  function OrElse(a: JsValue, b: JsValue): JsValue
  {
    if Nullish(a) then b else a
  }

  /** `e[k0] ?? e[k1] ?? ... ?? fallback`. */
  function FirstPresent(e: Record, keys: seq<string>, fallback: JsValue): JsValue
  {
    if |keys| == 0 then fallback else OrElse(Get(e, keys[0]), FirstPresent(e, keys[1..], fallback))
  }

  /** The chain picks the first listed field that is neither `null` nor `undefined`. */
  lemma {:induction false} FirstPresentPicksFirst(e: Record, keys: seq<string>, fallback: JsValue, i: nat)
    requires i < |keys| && !Nullish(Get(e, keys[i]))
    requires forall j :: 0 <= j < i ==> Nullish(Get(e, keys[j]))
    ensures FirstPresent(e, keys, fallback) == Get(e, keys[i])
    decreases i
  {
    if i > 0 {
      var tail := keys[1..];
      assert tail[i - 1] == keys[i];
      assert forall j :: 0 <= j < i - 1 ==> tail[j] == keys[j + 1];
      FirstPresentPicksFirst(e, tail, fallback, i - 1);
    }
  }

  /** When every listed field is `null` or `undefined`, the chain gives the fallback. */
  lemma {:induction false} FirstPresentFallsBack(e: Record, keys: seq<string>, fallback: JsValue)
    requires forall j :: 0 <= j < |keys| ==> Nullish(Get(e, keys[j]))
    ensures FirstPresent(e, keys, fallback) == fallback
    decreases |keys|
  {
    if |keys| > 0 {
      var tail := keys[1..];
      assert forall j :: 0 <= j < |tail| ==> tail[j] == keys[j + 1];
      FirstPresentFallsBack(e, tail, fallback);
    }
  }

  /** `String(v)`. */
  function JsToString(v: JsValue): string
  {
    match v
    case JsUndefined => "undefined"
    case JsNull => "null"
    case JsBool(b) => if b then "true" else "false"
    case JsNumber(n) => IntToString(n)
    case JsString(s) => s
    case JsObject => "[object Object]"
    case JsEmptyArray => ""
  }

  /** The characters `String.prototype.trim` removes: white space and line
      terminators. */
  predicate IsJsSpace(c: char)
  {
    || ('\U{0009}' <= c <= '\U{000D}') || c == ' ' || c == '\U{00A0}' || c == '\U{1680}'
    || ('\U{2000}' <= c <= '\U{200A}') || c == '\U{2028}' || c == '\U{2029}' || c == '\U{202F}'
    || c == '\U{205F}' || c == '\U{3000}' || c == '\U{FEFF}'
  }

  function TrimStart(s: string): (r: string)
    ensures |r| <= |s| && r == s[|s| - |r|..]
    ensures |r| > 0 ==> !IsJsSpace(r[0])
    ensures forall i :: 0 <= i < |s| - |r| ==> IsJsSpace(s[i])
  {
    if |s| > 0 && IsJsSpace(s[0]) then TrimStart(s[1..]) else s
  }

  function TrimEnd(s: string): (r: string)
    ensures |r| <= |s| && r == s[..|r|]
    ensures |r| > 0 ==> !IsJsSpace(r[|r| - 1])
    ensures forall i :: |r| <= i < |s| ==> IsJsSpace(s[i])
  {
    if |s| > 0 && IsJsSpace(s[|s| - 1]) then TrimEnd(s[..|s| - 1]) else s
  }

  /** `s.trim()`: the longest stretch that neither starts nor ends with white space. */
  function Trim(s: string): (r: string)
    ensures |r| <= |s|
    ensures |r| > 0 ==> !IsJsSpace(r[0]) && !IsJsSpace(r[|r| - 1])
    ensures r == "" <==> forall i :: 0 <= i < |s| ==> IsJsSpace(s[i])
  {
    var t := TrimStart(s);
    var r := TrimEnd(t);
    assert (r == "" <==> forall i :: 0 <= i < |s| ==> IsJsSpace(s[i])) && (|r| > 0 ==> !IsJsSpace(r[0])) by {
      if r != "" {
        assert r[0] == t[0] && t[0] == s[|s| - |t|];
      }
    }
    r
  }

  /** A string that neither starts nor ends with white space is its own trim. */
  lemma TrimOfTrimmed(s: string)
    requires |s| > 0 ==> !IsJsSpace(s[0]) && !IsJsSpace(s[|s| - 1])
    ensures Trim(s) == s
  {
  }

  lemma TrimIdempotent(s: string)
    ensures Trim(Trim(s)) == Trim(s)
  {
    TrimOfTrimmed(Trim(s));
  }

  /** `Number(s)` for the decimal integers the API sends: surrounding white space is
      ignored and the empty string is 0; anything else it cannot read is NaN (None). */
  function StringToNumber(s: string): Option<int>
  {
    var t := Trim(s);
    if t == "" then Some(0) else ParseDecimal(t)
  }

  /** `Number(v)`; None is NaN. */
  function JsToNumber(v: JsValue): Option<int>
  {
    match v
    case JsUndefined => None
    case JsNull => Some(0)
    case JsBool(b) => Some(if b then 1 else 0)
    case JsNumber(n) => Some(n)
    case JsString(s) => StringToNumber(s)
    case JsObject => None
    case JsEmptyArray => Some(0)
  }

  /** The spelling of an id reads back as the id. */
  lemma IdStringToNumber(n: int)
    ensures StringToNumber(IntToString(n)) == Some(n)
  {
    var s := IntToString(n);
    assert !IsJsSpace(s[0]) && !IsJsSpace(s[|s| - 1]) by {
      if n < 0 {
        assert s[1..] == NatToDecimal(-n);
        assert IsDigit(s[|s| - 1]) by { assert s[|s| - 1] == s[1..][|s| - 2]; }
      } else {
        assert IsDigit(s[0]) && IsDigit(s[|s| - 1]);
      }
    }
    TrimOfTrimmed(s);
    IntStringRoundTrip(n);
  }

  /** A ticket of the list as the dashboard holds it. `sentimentScore` None is NaN
      and `createdAt` None is `undefined`. */
  datatype TicketSummary = TicketSummary(
    id: string,
    customerName: string,
    customerEmail: string,
    subject: string,
    urgencyLevel: string,
    category: string,
    status: string,
    sentimentScore: Option<int>,
    createdAt: Option<string>)

  lemma FirstOfOne(e: Record, a: string, fallback: JsValue)
    ensures FirstPresent(e, [a], fallback) == OrElse(Get(e, a), fallback)
  {
    var keys := [a];
    assert keys[1..] == [];
  }

  lemma FirstOfTwo(e: Record, a: string, b: string, fallback: JsValue)
    ensures FirstPresent(e, [a, b], fallback) == OrElse(Get(e, a), OrElse(Get(e, b), fallback))
  {
    var keys := [a, b];
    assert keys[1..] == [b];
    FirstOfOne(e, b, fallback);
  }

  lemma FirstOfThree(e: Record, a: string, b: string, c: string, fallback: JsValue)
    ensures FirstPresent(e, [a, b, c], fallback) == OrElse(Get(e, a), OrElse(Get(e, b), OrElse(Get(e, c), fallback)))
  {
    var keys := [a, b, c];
    assert keys[1..] == [b, c];
    FirstOfTwo(e, b, c, fallback);
  }

  /** The list mapping of one API record: each field from its snake_case key, else
      its camelCase key (and, for the email, `email`), else ""; the sentiment
      defaults to 0; the id is stringified, whatever it is. */
  function MapRecord(e: Record): TicketSummary
  {
    TicketSummary(
      JsToString(Get(e, "id")),
      JsToString(FirstPresent(e, ["customer_name", "customerName"], JsString(""))),
      JsToString(FirstPresent(e, ["customer_email", "customerEmail", "email"], JsString(""))),
      JsToString(FirstPresent(e, ["subject"], JsString(""))),
      JsToString(FirstPresent(e, ["urgency_level", "urgencyLevel"], JsString(""))),
      JsToString(FirstPresent(e, ["category"], JsString(""))),
      JsToString(FirstPresent(e, ["status"], JsString(""))),
      JsToNumber(FirstPresent(e, ["sentiment_score", "sentimentScore"], JsNumber(0))),
      if Nullish(Get(e, "created_at")) then None else Some(JsToString(Get(e, "created_at"))))
  }

  /** The snake_case field wins when present, the camelCase one (then `email`) is
      the fallback, and a record with none of them gets "" (a sentiment of 0). */
  lemma MapRecordFallbacks(e: Record)
    ensures var r := MapRecord(e);
      && (!Nullish(Get(e, "customer_name")) ==> r.customerName == JsToString(Get(e, "customer_name")))
      && (Nullish(Get(e, "customer_name")) && !Nullish(Get(e, "customerName")) ==>
           r.customerName == JsToString(Get(e, "customerName")))
      && (Nullish(Get(e, "customer_name")) && Nullish(Get(e, "customerName")) ==> r.customerName == "")
      && (!Nullish(Get(e, "customer_email")) ==> r.customerEmail == JsToString(Get(e, "customer_email")))
      && (Nullish(Get(e, "customer_email")) && !Nullish(Get(e, "customerEmail")) ==>
           r.customerEmail == JsToString(Get(e, "customerEmail")))
      && (Nullish(Get(e, "customer_email")) && Nullish(Get(e, "customerEmail")) && !Nullish(Get(e, "email")) ==>
           r.customerEmail == JsToString(Get(e, "email")))
      && (Nullish(Get(e, "customer_email")) && Nullish(Get(e, "customerEmail")) && Nullish(Get(e, "email")) ==>
           r.customerEmail == "")
      && (Nullish(Get(e, "sentiment_score")) && Nullish(Get(e, "sentimentScore")) ==> r.sentimentScore == Some(0))
      && (Nullish(Get(e, "status")) ==> r.status == "")
  {
    FirstOfTwo(e, "customer_name", "customerName", JsString(""));
    FirstOfThree(e, "customer_email", "customerEmail", "email", JsString(""));
    FirstOfTwo(e, "sentiment_score", "sentimentScore", JsNumber(0));
    FirstOfOne(e, "status", JsString(""));
  }

  /** The JSON object the API sends for a stored ticket (`createdAt` is the
      serialised creation date). */
  function EncodeTicket(t: Ticket, createdAt: string): Record
  {
    map[
      "id" := JsNumber(t.id),
      "subject" := JsString(t.subject),
      "customer_name" := JsString(t.customerName),
      "customer_email" := if t.customerEmail.Some? then JsString(t.customerEmail.value) else JsNull,
      "status" := JsString(StatusName(t.status)),
      "category" := if t.category.Some? then JsString(CategoryName(t.category.value)) else JsNull,
      "urgency_level" := JsString(UrgencyName(t.urgency)),
      "sentiment_score" := JsNumber(t.sentiment),
      "description" := JsString(t.description),
      "created_at" := JsString(createdAt)]
  }

  /** The fields of the encoded ticket. */
  lemma EncodedTicketFields(t: Ticket, createdAt: string)
    ensures var e := EncodeTicket(t, createdAt);
      && Get(e, "id") == JsNumber(t.id)
      && Get(e, "customer_name") == JsString(t.customerName)
      && Get(e, "customer_email") == (if t.customerEmail.Some? then JsString(t.customerEmail.value) else JsNull)
      && Get(e, "customerEmail") == JsUndefined && Get(e, "email") == JsUndefined
      && Get(e, "subject") == JsString(t.subject)
      && Get(e, "urgency_level") == JsString(UrgencyName(t.urgency))
      && Get(e, "category") == (if t.category.Some? then JsString(CategoryName(t.category.value)) else JsNull)
      && Get(e, "status") == JsString(StatusName(t.status))
      && Get(e, "sentiment_score") == JsNumber(t.sentiment)
      && Get(e, "created_at") == JsString(createdAt)
  {
  }

  /** The list mapping of a record whose fields are those of an encoded ticket. */
  lemma MapTicketFields(e: Record, t: Ticket, createdAt: string)
    requires Get(e, "id") == JsNumber(t.id)
    requires Get(e, "customer_name") == JsString(t.customerName)
    requires Get(e, "customer_email") == (if t.customerEmail.Some? then JsString(t.customerEmail.value) else JsNull)
    requires Get(e, "customerEmail") == JsUndefined && Get(e, "email") == JsUndefined
    requires Get(e, "subject") == JsString(t.subject)
    requires Get(e, "urgency_level") == JsString(UrgencyName(t.urgency))
    requires Get(e, "category") == (if t.category.Some? then JsString(CategoryName(t.category.value)) else JsNull)
    requires Get(e, "status") == JsString(StatusName(t.status))
    requires Get(e, "sentiment_score") == JsNumber(t.sentiment)
    requires Get(e, "created_at") == JsString(createdAt)
    ensures MapRecord(e) == TicketSummary(
      IntToString(t.id), t.customerName, if t.customerEmail.Some? then t.customerEmail.value else "",
      t.subject, UrgencyName(t.urgency), if t.category.Some? then CategoryName(t.category.value) else "",
      StatusName(t.status), Some(t.sentiment), Some(createdAt))
  {
    FirstOfTwo(e, "customer_name", "customerName", JsString(""));
    FirstOfThree(e, "customer_email", "customerEmail", "email", JsString(""));
    FirstOfOne(e, "subject", JsString(""));
    FirstOfTwo(e, "urgency_level", "urgencyLevel", JsString(""));
    FirstOfOne(e, "category", JsString(""));
    FirstOfOne(e, "status", JsString(""));
    FirstOfTwo(e, "sentiment_score", "sentimentScore", JsNumber(0));
  }

  /** A stored ticket reaches the list with its own fields: the id spelled in
      decimal (which reads back as the same id), an unset email or category as "". */
  lemma MapEncodedTicket(t: Ticket, createdAt: string)
    ensures MapRecord(EncodeTicket(t, createdAt)) == TicketSummary(
      IntToString(t.id), t.customerName, if t.customerEmail.Some? then t.customerEmail.value else "",
      t.subject, UrgencyName(t.urgency), if t.category.Some? then CategoryName(t.category.value) else "",
      StatusName(t.status), Some(t.sentiment), Some(createdAt))
    ensures StringToNumber(MapRecord(EncodeTicket(t, createdAt)).id) == Some(t.id)
  {
    EncodedTicketFields(t, createdAt);
    MapTicketFields(EncodeTicket(t, createdAt), t, createdAt);
    IdStringToNumber(t.id);
  }

  // ---------------------------------------------------------------------------
  // List response, pagination metadata and the page window

  /** The decoded list response: an object with `data` and `meta` (each possibly
      missing), or a bare array. */
  datatype ListResponse = ListObject(data: Option<seq<Record>>, meta: Option<Record>) | ListArray(items: seq<Record>)

  /** `json.data ?? (Array.isArray(json) ? json : [])`. */
  function ListRecords(body: ListResponse): seq<Record>
  {
    match body
    case ListObject(data, _) => if data.Some? then data.value else []
    case ListArray(items) => items
  }

  /** `json.meta ?? {}`. */
  function ListMetaRecord(body: ListResponse): Record
  {
    match body
    case ListObject(_, meta) => if meta.Some? then meta.value else map[]
    case ListArray(_) => map[]
  }

  /** `typeof meta.total === "number" ? meta.total : mapped.length`. */
  function MetaTotal(meta: Record, length: nat): (r: int)
    ensures Get(meta, "total").JsNumber? ==> r == Get(meta, "total").n
    ensures !Get(meta, "total").JsNumber? ==> r == length
  {
    if Get(meta, "total").JsNumber? then Get(meta, "total").n else length
  }

  /** `typeof meta.totalPages === "number" ? meta.totalPages : 1`. */
  function MetaTotalPages(meta: Record): (r: int)
    ensures Get(meta, "totalPages").JsNumber? ==> r == Get(meta, "totalPages").n
    ensures !Get(meta, "totalPages").JsNumber? ==> r == 1
  {
    if Get(meta, "totalPages").JsNumber? then Get(meta, "totalPages").n else 1
  }

  /** The JSON the ticket service's metadata becomes: `[]` stays an array, and a
      non-finite page count is written as `null`. */
  function EncodeMeta(m: TicketService.ListMeta): Record
  {
    map[
      "total" := (match m.total case Rows(n) => JsNumber(n) case EmptyArray => JsEmptyArray),
      "totalPages" := (match m.totalPages case Pages(n) => JsNumber(n) case NotFinite => JsNull),
      "page" := JsNumber(m.page),
      "limit" := JsNumber(m.limit)]
  }

  /** The total the dashboard shows is the number of stored tickets, also for an
      empty table, whose count arrives as `[]` and falls back to the (empty) page's
      length. */
  lemma DisplayedTotalIsRowCount(rows: seq<Ticket>, limit: int, page: int)
    requires limit > 0 && page >= 1
    ensures SelectPage(rows, true, limit, page).Ok?
    ensures var meta := TicketService.ListMeta(CountOf(rows), TicketService.TotalPages(CountValue(CountOf(rows)), limit), page, limit);
      MetaTotal(EncodeMeta(meta), |SelectPage(rows, true, limit, page).value|) == |rows|
  {
    SelectPageRows(rows, true, limit, page);
  }

  /** "Showing start-end of total": the first and last position of the page. */
  function WindowStart(page: int, limit: int): int
  {
    (page - 1) * limit + 1
  }

  function WindowEnd(page: int, limit: int, total: int): int
  {
    if page * limit < total then page * limit else total
  }

  /** On a page that holds tickets, the window counts exactly the tickets the backend
      returns for it. */
  lemma WindowMatchesPage(rows: seq<Ticket>, limit: int, page: int)
    requires limit > 0 && page >= 1
    requires (page - 1) * limit < |rows|
    ensures SelectPage(rows, true, limit, page).Ok?
    ensures WindowEnd(page, limit, |rows|) - WindowStart(page, limit) + 1 == |SelectPage(rows, true, limit, page).value|
  {
    PageArithmetic(page, limit);
    var offset := (page - 1) * limit;
    var sorted := SortByCreated(rows);
    assert |sorted| == |rows|;
    var data := Postgres.LimitOffset(sorted, limit, limit * (page - 1));
    assert data.Ok? && |data.value| == (if |rows| - offset < limit then |rows| - offset else limit);
    assert WindowEnd(page, limit, |rows|) == (if offset + limit < |rows| then offset + limit else |rows|);
  }

  lemma PageArithmetic(page: int, limit: int)
    requires limit > 0 && page >= 1
    ensures limit * (page - 1) == (page - 1) * limit && (page - 1) * limit >= 0
    ensures page * limit == (page - 1) * limit + limit
  {
    TicketService.MulAtLeastZero(page - 1, limit);
  }

  /** The page sizes the selector offers. */
  const PageSizes: set<int> := {5, 10, 20, 50}
  const DefaultLimit: int := 10

  /** Which ticket is selected after a list loads: the current one if any, else the
      first loaded; none when the page is empty. */
  function SelectAfterLoad(prev: Option<string>, mapped: seq<TicketSummary>): (r: Option<string>)
    ensures |mapped| == 0 <==> r.None?
    ensures |mapped| > 0 && prev.Some? ==> r == prev
    ensures |mapped| > 0 && prev.None? ==> r == Some(mapped[0].id)
  {
    if |mapped| > 0 then (if prev.Some? then prev else Some(mapped[0].id)) else None
  }

  // ---------------------------------------------------------------------------
  // Ticket detail and messages

  /** A message of the detail view: `userType` is the record's `user_type`; the view
      object has no `user_type` field of its own. */
  datatype MessageView = MessageView(id: JsValue, userType: JsValue, status: JsValue, text: JsValue)

  /** A ticket of the detail view: its raw `id`, its status as a string, its
      description and its messages. */
  datatype DetailView = DetailView(id: JsValue, status: string, description: string, messages: seq<MessageView>)

  /** The detail mapping of one message record. */
  function MapMessage(e: Record): (m: MessageView)
    ensures m.id == OrElse(Get(e, "id"), Get(e, "ticket_id"))
    ensures m.userType == Get(e, "user_type") && m.status == Get(e, "status") && m.text == Get(e, "message")
  {
    MessageView(OrElse(Get(e, "id"), Get(e, "ticket_id")), Get(e, "user_type"), Get(e, "status"), Get(e, "message"))
  }

  /** `String(json.description) ?? ''`: `String` never gives `null`, so the fallback
      is dead and a missing description is shown as "undefined". */
  function DetailDescription(json: Record): (r: string)
    ensures Get(json, "description").JsUndefined? ==> r == "undefined"
    ensures Get(json, "description").JsString? ==> r == Get(json, "description").s
  {
    JsToString(Get(json, "description"))
  }

  /** `msg.userType ?? msg.user_type ?? 'CUSTOMER'`, the middle operand being always
      `undefined`. */
  function EffectiveUserType(m: MessageView): (r: JsValue)
    ensures Nullish(m.userType) ==> r == JsString("CUSTOMER")
    ensures !Nullish(m.userType) ==> r == m.userType
  {
    OrElse(OrElse(m.userType, JsUndefined), JsString("CUSTOMER"))
  }

  /** `canEdit`: an agent's draft on a ticket that is not closed. */
  predicate CanEdit(m: MessageView, ticketStatus: string)
  {
    m.status == JsString("DRAFT") && EffectiveUserType(m) == JsString("AGENT") && ticketStatus != "CLOSED"
  }

  /** The JSON object the API sends for a stored message. */
  function EncodeMessage(m: Message): Record
  {
    map[
      "id" := JsNumber(m.id),
      "ticket_id" := JsNumber(m.ticketId),
      "user_type" := JsString(UserTypeName(m.userType)),
      "status" := JsString(MessageStatusName(m.status)),
      "message" := JsString(m.text)]
  }

  /** A stored message is editable on the dashboard exactly when it is an agent's
      draft and its ticket is open: in particular every reply the classifier drafts,
      until the ticket is resolved. */
  lemma EditableIffAgentDraftOnOpenTicket(m: Message, t: Ticket)
    ensures CanEdit(MapMessage(EncodeMessage(m)), StatusName(t.status)) <==>
      m.userType == AGENT && m.status == DRAFT && t.status == OPEN
  {
    var v := MapMessage(EncodeMessage(m));
    assert v.status == JsString(MessageStatusName(m.status));
    assert v.userType == JsString(UserTypeName(m.userType));
  }

  /** Resolving any ticket closes all of them, after which no message of any ticket
      can be edited. */
  lemma NothingEditableAfterResolve(rows: seq<Ticket>, now: int, k: nat, m: Message)
    requires k < |rows|
    ensures !CanEdit(MapMessage(EncodeMessage(m)), StatusName(ClosedAll(rows, now)[k].status))
  {
    EditableIffAgentDraftOnOpenTicket(m, ClosedAll(rows, now)[k]);
  }

  // ---------------------------------------------------------------------------
  // Guards of the message handlers

  /** A toast the handler shows instead of sending. */
  datatype Notice = Notice(variant: string, title: string, description: string)

  const ResolvedTitle: string := "Ticket is resolved"
  const EditRefusedNotice: Notice := Notice("info", ResolvedTitle, "Draft messages can\U{2019}t be edited after a ticket is resolved.")
  const PublishRefusedNotice: Notice := Notice("info", ResolvedTitle, "Messages can\U{2019}t be published after a ticket is resolved.")
  const CreateRefusedNotice: Notice := Notice("info", ResolvedTitle, "New messages can\U{2019}t be added after a ticket is resolved.")
  const EmptyMessageNotice: Notice := Notice("info", "Add a message", "Please write a message before submitting.")

  /** The body of a PATCH to a message: `{message}`. */
  datatype MessagePatch = MessagePatch(messageId: JsValue, message: string)

  /** The `ticket_id` of a new message: the number when `Number(id)` is not NaN,
      otherwise the id as it was. */
  datatype TicketIdField = NumericId(n: int) | RawId(v: JsValue)

  datatype NewMessage = NewMessage(ticketId: TicketIdField, message: string)

  datatype Guarded<T> = Refused(notice: Notice) | Send(request: T)

  /** The detail shown is a closed ticket; with no detail loaded nothing is refused. */
  predicate DetailClosed(detail: Option<DetailView>)
  {
    detail.Some? && detail.value.status == "CLOSED"
  }

  /** `updateDraftMessage`: refused on a closed ticket; otherwise the text is sent as
      it is, untrimmed. */
  function UpdateGuard(detail: Option<DetailView>, messageId: JsValue, text: string): (r: Guarded<MessagePatch>)
    ensures r.Refused? <==> DetailClosed(detail)
    ensures r.Refused? ==> r.notice == EditRefusedNotice
    ensures r.Send? ==> r.request == MessagePatch(messageId, text)
  {
    if DetailClosed(detail) then Refused(EditRefusedNotice) else Send(MessagePatch(messageId, text))
  }

  /** `publishMessage`: refused on a closed ticket. */
  function PublishGuard(detail: Option<DetailView>, messageId: JsValue, text: string): (r: Guarded<MessagePatch>)
    ensures r.Refused? <==> DetailClosed(detail)
    ensures r.Refused? ==> r.notice == PublishRefusedNotice
    ensures r.Send? ==> r.request == MessagePatch(messageId, text)
  {
    if DetailClosed(detail) then Refused(PublishRefusedNotice) else Send(MessagePatch(messageId, text))
  }

  /** `createMessageForTicket`: a blank text is refused first, then a closed ticket;
      otherwise the trimmed text is sent with the ticket id. */
  function CreateGuard(detail: Option<DetailView>, ticketId: JsValue, text: string): (r: Guarded<NewMessage>)
    ensures Trim(text) == "" ==> r == Refused(EmptyMessageNotice)
    ensures Trim(text) != "" && DetailClosed(detail) ==> r == Refused(CreateRefusedNotice)
    ensures r.Send? <==> Trim(text) != "" && !DetailClosed(detail)
    ensures r.Send? ==> r.request.message == Trim(text) && r.request.message != ""
    ensures r.Send? && JsToNumber(ticketId).Some? ==> r.request.ticketId == NumericId(JsToNumber(ticketId).value)
    ensures r.Send? && JsToNumber(ticketId).None? ==> r.request.ticketId == RawId(ticketId)
  {
    if Trim(text) == "" then Refused(EmptyMessageNotice)
    else if DetailClosed(detail) then Refused(CreateRefusedNotice)
    else
      var n := JsToNumber(ticketId);
      Send(NewMessage(if n.Some? then NumericId(n.value) else RawId(ticketId), Trim(text)))
  }

  /** A message the dashboard creates for a stored ticket reaches the backend with
      that ticket's id and passes its validation. */
  lemma CreatedMessagePassesValidation(detail: Option<DetailView>, t: Ticket, text: string)
    requires t.id >= 1
    requires Trim(text) != "" && !DetailClosed(detail)
    ensures CreateGuard(detail, JsNumber(t.id), text) == Send(NewMessage(NumericId(t.id), Trim(text)))
    ensures MessageService.MessageInputError(MessageService.MessageInput(None, Some(Trim(text)), Some(t.id))).None?
  {
  }

  // ---------------------------------------------------------------------------
  // List state

  /** The list half of the dashboard state. */
  class TicketList {
    var tickets: seq<TicketSummary>
    var page: int
    var limit: int
    var total: int
    var totalPages: int
    var selectedTicketId: Option<string>
    var detail: Option<DetailView>
    var draftMessage: string
    var error: Option<string>

    ghost predicate Valid()
      reads this
    {
      page >= 1 && limit in PageSizes
    }

    /** The first render: page 1 of 10, nothing loaded or selected. */
    constructor ()
      ensures Valid()
      ensures tickets == [] && page == 1 && limit == DefaultLimit && total == 0 && totalPages == 0
      ensures selectedTicketId.None? && detail.None? && draftMessage == "" && error.None?
    {
      tickets := [];
      page := 1;
      limit := DefaultLimit;
      total := 0;
      totalPages := 0;
      selectedTicketId := None;
      detail := None;
      draftMessage := "";
      error := None;
    }

    /** A list response arrived: the mapped tickets, the metadata with its fallbacks,
        and the selection; an empty page also clears the detail and the draft. */
    method Loaded(body: ListResponse)
      requires Valid()
      modifies this
      ensures Valid() && page == old(page) && limit == old(limit) && error.None?
      ensures tickets == seq(|ListRecords(body)|, i requires 0 <= i < |ListRecords(body)| => MapRecord(ListRecords(body)[i]))
      ensures total == MetaTotal(ListMetaRecord(body), |tickets|)
      ensures totalPages == MetaTotalPages(ListMetaRecord(body))
      ensures selectedTicketId == SelectAfterLoad(old(selectedTicketId), tickets)
      ensures |tickets| == 0 ==> detail.None? && draftMessage == ""
      ensures |tickets| > 0 ==> detail == old(detail) && draftMessage == old(draftMessage)
    {
      error := None;
      var records := ListRecords(body);
      tickets := seq(|records|, i requires 0 <= i < |records| => MapRecord(records[i]));
      var meta := ListMetaRecord(body);
      total := MetaTotal(meta, |tickets|);
      totalPages := MetaTotalPages(meta);
      selectedTicketId := SelectAfterLoad(selectedTicketId, tickets);
      if |tickets| == 0 {
        detail := None;
        draftMessage := "";
      }
    }

    /** The list request failed with `message`. */
    method LoadFailed(message: string)
      requires Valid()
      modifies this
      ensures Valid() && page == old(page) && limit == old(limit)
      ensures error == Some(message) && tickets == [] && total == 0 && totalPages == 0 && selectedTicketId.None?
      ensures detail == old(detail) && draftMessage == old(draftMessage)
    {
      error := Some(message);
      tickets := [];
      total := 0;
      totalPages := 0;
      selectedTicketId := None;
    }

    /** Prev: one page back, never below page 1. */
    method PrevPage()
      requires Valid()
      modifies this
      ensures Valid() && page == (if old(page) > 1 then old(page) - 1 else 1)
      ensures old(page) <= totalPages ==> page <= totalPages
      ensures limit == old(limit) && tickets == old(tickets) && total == old(total) && totalPages == old(totalPages)
      ensures selectedTicketId == old(selectedTicketId) && detail == old(detail) && draftMessage == old(draftMessage) && error == old(error)
    {
      page := if 1 > page - 1 then 1 else page - 1;
    }

    /** Next: one page on, never past the last page; the button is disabled on the
        last page. */
    method NextPage()
      requires Valid() && page < totalPages
      modifies this
      ensures Valid() && page == old(page) + 1 && page <= totalPages
      ensures limit == old(limit) && tickets == old(tickets) && total == old(total) && totalPages == old(totalPages)
      ensures selectedTicketId == old(selectedTicketId) && detail == old(detail) && draftMessage == old(draftMessage) && error == old(error)
    {
      page := if totalPages < page + 1 then totalPages else page + 1;
    }

    /** A new page size from the selector restarts at page 1. */
    method SetPageSize(n: int)
      requires Valid() && n in PageSizes
      modifies this
      ensures Valid() && limit == n && page == 1
      ensures tickets == old(tickets) && total == old(total) && totalPages == old(totalPages)
      ensures selectedTicketId == old(selectedTicketId) && detail == old(detail) && draftMessage == old(draftMessage) && error == old(error)
    {
      limit := n;
      page := 1;
    }
  }
}
