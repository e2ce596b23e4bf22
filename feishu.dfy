/**
 * The record-table client: normalising a raw record into the four fields the
 * scheduler needs, following the pages of a record search, and turning an
 * API reply into success or failure.
 */
module Feishu {
  import opened Types
  import opened Strings

  // ---------------------------------------------------------------------------
  // JavaScript value semantics used by the parser
  // ---------------------------------------------------------------------------

  /** JavaScript truthiness of a JSON-like value. */
  predicate Truthy(v: Json)
  {
    match v
    case JUndefined => false
    case JNull => false
    case JBool(b) => b
    case JNum(n) => n != 0
    case JStr(s) => s != ""
    case JArr(_) => true
    case JObj(_) => true
  }

  /**
   * `String(v)`: arrays join their elements with commas, writing `null` and
   * `undefined` elements as empty text; plain objects print as `[object Object]`.
   */
  function JsString(v: Json): string
    decreases v, 1
  {
    match v
    case JUndefined => "undefined"
    case JNull => "null"
    case JBool(b) => if b then "true" else "false"
    case JNum(n) => IntToString(n)
    case JStr(s) => s
    case JArr(elems) => JoinElements(elems, v)
    case JObj(_) => "[object Object]"
  }

  /** The comma-joined text of the elements of array `whole`. */
  function JoinElements(elems: seq<Json>, whole: Json): string
    requires forall e | e in elems :: e < whole
    decreases whole, 0, |elems|
  {
    if elems == [] then ""
    else
      assert elems[0] in elems;
      assert forall e | e in elems[1..] :: e in elems;
      var first := if elems[0].JUndefined? || elems[0].JNull? then "" else JsString(elems[0]);
      if |elems| == 1 then first else first + "," + JoinElements(elems[1..], whole)
  }

  // ---------------------------------------------------------------------------
  // parseRecord
  // ---------------------------------------------------------------------------

  /** `fields[name]`: a column that is absent reads as `undefined`. */
  function Lookup(fields: map<string, Json>, name: string): Json
  {
    if name in fields then fields[name] else JUndefined
  }

  /** An array-valued cell is replaced by its first element (`undefined` for an empty array). */
  function FirstIfArray(v: Json): Json
  {
    match v
    case JArr(elems) => if elems == [] then JUndefined else elems[0]
    case _ => v
  }

  /**
   * An object-valued cell (arrays included, since their `typeof` is also
   * "object") is replaced by its `text` property when that is truthy.
   */
  function TextIfObject(v: Json): Json
  {
    match v
    case JObj(props) => if "text" in props && Truthy(props["text"]) then props["text"] else v
    case JArr(_) => v
    case _ => v
  }

  /** Both normalisation steps, in the order the parser applies them. */
  function Normalise(v: Json): Json
  {
    TextIfObject(FirstIfArray(v))
  }

  /**
   * `parseRecord`. A numeric date is turned into calendar text by
   * `localDate`, which stands for the local-time formatting of a timestamp.
   * The result is `None` exactly when one of the four normalised values is
   * falsy.
   */
  function ParseRecord(record: FeishuRecord, names: FeishuFields, localDate: int -> string)
    : (r: Option<FeishuRecordData>)
    ensures r.Some? ==> r.value.recordId == record.record_id
  {
    var drama := Normalise(Lookup(record.fields, names.drama));
    var date0 := Normalise(Lookup(record.fields, names.date));
    var account := Normalise(Lookup(record.fields, names.account));
    var status := Normalise(Lookup(record.fields, names.status));
    var date := if date0.JNum? then JStr(localDate(date0.n)) else date0;
    if !Truthy(drama) || !Truthy(date) || !Truthy(account) || !Truthy(status) then None
    else Some(FeishuRecordData(record.record_id, JsString(drama), JsString(date),
                               JsString(account), JsString(status)))
  }

  /** The value a column contributes after normalisation and date conversion. */
  function Cell(record: FeishuRecord, name: string, isDate: bool, localDate: int -> string): Json
  {
    var v := Normalise(Lookup(record.fields, name));
    if isDate && v.JNum? then JStr(localDate(v.n)) else v
  }

  /** A record parses exactly when all four cells are truthy, and then carries their text. */
  lemma ParseRecordExactly(record: FeishuRecord, names: FeishuFields, localDate: int -> string)
    ensures var r := ParseRecord(record, names, localDate);
      var drama := Cell(record, names.drama, false, localDate);
      var date := Cell(record, names.date, true, localDate);
      var account := Cell(record, names.account, false, localDate);
      var status := Cell(record, names.status, false, localDate);
      && (r.Some? <==> Truthy(drama) && Truthy(date) && Truthy(account) && Truthy(status))
      && (r.Some? ==> r.value == FeishuRecordData(record.record_id, JsString(drama),
                                                  JsString(date), JsString(account),
                                                  JsString(status)))
  {
  }

  /** An array cell is read through its first element; an empty array reads as `undefined`. */
  lemma ArrayCellUsesFirst(elems: seq<Json>)
    ensures elems == [] ==> Normalise(JArr(elems)) == JUndefined
    ensures elems != [] ==> Normalise(JArr(elems)) == TextIfObject(elems[0])
  {
  }

  /** An object cell is read through its truthy `text`, and is otherwise kept whole. */
  lemma ObjectCellUsesText(props: map<string, Json>)
    ensures "text" in props && Truthy(props["text"]) ==> Normalise(JObj(props)) == props["text"]
    ensures !("text" in props && Truthy(props["text"])) ==> Normalise(JObj(props)) == JObj(props)
  {
  }

  /** A missing or empty drama column makes the record unusable. */
  lemma MissingDramaIsSkipped(record: FeishuRecord, names: FeishuFields, localDate: int -> string)
    requires names.drama !in record.fields || record.fields[names.drama] == JStr("")
             || record.fields[names.drama] == JArr([])
    ensures ParseRecord(record, names, localDate) == None
  {
  }

  /** Four non-empty plain-text cells are carried over verbatim. */
  lemma PlainTextRecordParses(record: FeishuRecord, names: FeishuFields, localDate: int -> string,
                              drama: string, date: string, account: string, status: string)
    requires drama != "" && date != "" && account != "" && status != ""
    requires Lookup(record.fields, names.drama) == JStr(drama)
    requires Lookup(record.fields, names.date) == JStr(date)
    requires Lookup(record.fields, names.account) == JStr(account)
    requires Lookup(record.fields, names.status) == JStr(status)
    ensures ParseRecord(record, names, localDate)
            == Some(FeishuRecordData(record.record_id, drama, date, account, status))
  {
  }

  /** A single-element array of a text object reads as that text. */
  lemma WrappedTextParsesAsText(props: map<string, Json>, text: string)
    requires "text" in props && props["text"] == JStr(text) && text != ""
    ensures JsString(Normalise(JArr([JObj(props)]))) == text
  {
  }

  /** `records.map(parseRecord).filter(r => r !== null)`. */
  function ParseAll(records: seq<FeishuRecord>, names: FeishuFields, localDate: int -> string)
    : seq<FeishuRecordData>
  {
    if records == [] then []
    else
      var head := ParseRecord(records[0], names, localDate);
      (if head.Some? then [head.value] else []) + ParseAll(records[1..], names, localDate)
  }

  /** Parsing pages one after another gives the same list as parsing them together. */
  lemma {:induction false} ParseAllAppend(a: seq<FeishuRecord>, b: seq<FeishuRecord>,
                                         names: FeishuFields, localDate: int -> string)
    ensures ParseAll(a + b, names, localDate) == ParseAll(a, names, localDate) + ParseAll(b, names, localDate)
  {
    if a == [] {
      assert a + b == b;
    } else {
      assert (a + b)[1..] == a[1..] + b;
      ParseAllAppend(a[1..], b, names, localDate);
    }
  }

  /**
   * The parsed list holds the successful parses and nothing else; that it
   * keeps input order follows from `ParseAllAppend`.
   */
  lemma {:induction false} ParseAllKeepsSuccesses(records: seq<FeishuRecord>, names: FeishuFields,
                                                 localDate: int -> string)
    ensures |ParseAll(records, names, localDate)| <= |records|
    ensures forall d :: d in ParseAll(records, names, localDate) <==>
              exists i :: 0 <= i < |records| && ParseRecord(records[i], names, localDate) == Some(d)
    ensures (forall i :: 0 <= i < |records| ==> ParseRecord(records[i], names, localDate).Some?)
            ==> |ParseAll(records, names, localDate)| == |records|
  {
    if records != [] {
      var rest := records[1..];
      ParseAllKeepsSuccesses(rest, names, localDate);
      forall d ensures d in ParseAll(records, names, localDate) <==>
                 exists i :: 0 <= i < |records| && ParseRecord(records[i], names, localDate) == Some(d)
      {
        if d in ParseAll(rest, names, localDate) {
          var i :| 0 <= i < |rest| && ParseRecord(rest[i], names, localDate) == Some(d);
          assert records[i + 1] == rest[i];
        }
        if exists i :: 0 <= i < |records| && ParseRecord(records[i], names, localDate) == Some(d) {
          var i :| 0 <= i < |records| && ParseRecord(records[i], names, localDate) == Some(d);
          if i > 0 {
            assert rest[i - 1] == records[i];
          }
        }
      }
    }
  }

  // ---------------------------------------------------------------------------
  // request and updateRecordStatus
  // ---------------------------------------------------------------------------

  /**
   * What one API call produces: a failure before a reply exists (token fetch
   * or transport) or the service's reply envelope, whose `data` may be absent.
   */
  datatype Reply<T> = Transport(message: string) | Api(code: int, msg: string, data: Option<T>)

  /** `request`: a non-zero `code` becomes a thrown error; otherwise its `data` is returned. */
  function Request<T>(reply: Reply<T>): (r: Result<Option<T>, string>)
    ensures r.Ok? <==> reply.Api? && reply.code == 0
    ensures r.Ok? ==> r.value == reply.data
    ensures reply.Api? && reply.code != 0 ==> r == Err("API 调用失败: " + reply.msg)
  {
    match reply
    case Transport(message) => Err(message)
    case Api(code, msg, data) => if code != 0 then Err("API 调用失败: " + msg) else Ok(data)
  }

  /** `updateRecordStatus`: never throws; true exactly when the request did not throw. */
  function UpdateRecordStatus<T>(reply: Reply<T>): (ok: bool)
    ensures ok <==> Request(reply).Ok?
  {
    reply.Api? && reply.code == 0
  }

  // ---------------------------------------------------------------------------
  // getPendingRecords: the pagination loop
  // ---------------------------------------------------------------------------

  type Page = Reply<FeishuRecordListResponse>

  /** The `items` of a page, with a missing list read as empty. */
  function ItemsOf(r: FeishuRecordListResponse): seq<FeishuRecord>
  {
    if r.items.Some? then r.items.value else []
  }

  /**
   * The request fails: it throws, or it returns no `data`, so that reading
   * `response.items` throws.
   */
  predicate Fails(p: Page)
  {
    Request(p).Err? || p.data.None?
  }

  /** A page after which the loop asks for no further page. */
  predicate Stops(p: Page)
  {
    Fails(p) || !p.data.value.has_more
  }

  /** The token the next request carries: the page's `page_token` when truthy (a failing page is followed by no request). */
  function NextToken(p: Page): Option<string>
  {
    if Fails(p) then None
    else
      var t := p.data.value.page_token;
      if t.Some? && t.value != "" then t else None
  }

  /**
   * A page that says `has_more` but has no usable `page_token` does not stop
   * the loop, and the next request carries no token, as the first one does:
   * the loop asks for the first page again.
   */
  lemma MoreWithoutTokenRestarts(p: Page)
    requires !Fails(p) && p.data.value.has_more
    requires p.data.value.page_token.None? || p.data.value.page_token == Some("")
    ensures !Stops(p) && NextToken(p) == None
  {
  }

  /** The replies the service gives, in request order, of which the last one stops the loop. */
  predicate Finite(pages: seq<Page>)
  {
    |pages| > 0 && Stops(pages[|pages| - 1])
  }

  /** The error text when `data` is missing and `response.items` is read. */
  const MissingData := "TypeError: Cannot read properties of undefined (reading 'items')"

  /** The failure of a failing page. */
  function FailureOf(p: Page): string
    requires Fails(p)
  {
    if Request(p).Err? then Request(p).error else MissingData
  }

  /** `xs` followed by a result's list, or the failure itself. */
  function Prepend(xs: seq<FeishuRecord>, r: Result<seq<FeishuRecord>, string>)
    : Result<seq<FeishuRecord>, string>
  {
    if r.Ok? then Ok(xs + r.value) else r
  }

  /** The raw records of all pages from `from` on, following `has_more`. */
  function Fetch(pages: seq<Page>, from: nat): Result<seq<FeishuRecord>, string>
    requires Finite(pages) && from < |pages|
    decreases |pages| - from
  {
    var p := pages[from];
    if Fails(p) then Err(FailureOf(p))
    else if !p.data.value.has_more then Ok(ItemsOf(p.data.value))
    else Prepend(ItemsOf(p.data.value), Fetch(pages, from + 1))
  }

  /** How many requests the loop issues starting with page `from`. */
  function Requests(pages: seq<Page>, from: nat): (n: nat)
    requires Finite(pages) && from < |pages|
    ensures 1 <= n <= |pages| - from
    decreases |pages| - from
  {
    if Stops(pages[from]) then 1 else 1 + Requests(pages, from + 1)
  }

  /** Concatenation of the items of successful pages. */
  function Concat(pages: seq<Page>): seq<FeishuRecord>
    requires forall i :: 0 <= i < |pages| ==> !Fails(pages[i])
  {
    if pages == [] then []
    else
      assert !Fails(pages[0]);
      ItemsOf(pages[0].data.value) + Concat(pages[1..])
  }

  /** Every page the loop reads before the last one asks for more. */
  lemma {:induction false} ReadPagesContinue(pages: seq<Page>, from: nat)
    requires Finite(pages) && from < |pages|
    ensures forall j :: from <= j < from + Requests(pages, from) - 1 ==> !Stops(pages[j])
    decreases |pages| - from
  {
    if !Stops(pages[from]) {
      ReadPagesContinue(pages, from + 1);
    }
  }

  /** The loop succeeds exactly when the last page it reads succeeds, and that page has no more. */
  lemma {:induction false} FetchOkIffLastOk(pages: seq<Page>, from: nat)
    requires Finite(pages) && from < |pages|
    ensures var last := pages[from + Requests(pages, from) - 1];
      Fetch(pages, from).Ok? <==> !Fails(last)
    ensures var last := pages[from + Requests(pages, from) - 1];
      !Fails(last) ==> !last.data.value.has_more
    decreases |pages| - from
  {
    if !Stops(pages[from]) {
      FetchOkIffLastOk(pages, from + 1);
    }
  }

  /** A successful loop returns the items of the pages it read, in page order. */
  lemma {:induction false} FetchConcatenates(pages: seq<Page>, from: nat)
    requires Finite(pages) && from < |pages|
    requires Fetch(pages, from).Ok?
    ensures forall j :: from <= j < from + Requests(pages, from) ==> !Fails(pages[j])
    ensures Fetch(pages, from) == Ok(Concat(pages[from..from + Requests(pages, from)]))
    decreases |pages| - from
  {
    var p := pages[from];
    var n := Requests(pages, from);
    if Stops(p) {
      assert pages[from..from + 1] == [p];
      assert Concat([p]) == ItemsOf(p.data.value) + Concat([p][1..]);
      assert [p][1..] == [];
      assert ItemsOf(p.data.value) + [] == ItemsOf(p.data.value);
    } else {
      FetchConcatenates(pages, from + 1);
      var m := Requests(pages, from + 1);
      var tail := pages[from + 1..from + 1 + m];
      assert pages[from..from + n] == [p] + tail;
      assert ([p] + tail)[1..] == tail;
      assert Concat([p] + tail) == ItemsOf(p.data.value) + Concat(tail);
    }
  }

  /**
   * The loop reads exactly the pages up to the first one whose `has_more` is
   * false, and returns the concatenation of their items in page order; it
   * fails exactly when the last page it reads fails.
   */
  lemma FetchReadsUntilNoMore(pages: seq<Page>, from: nat)
    requires Finite(pages) && from < |pages|
    ensures var n := Requests(pages, from);
      && (forall j :: from <= j < from + n - 1 ==> !Stops(pages[j]))
      && (Fetch(pages, from).Ok? <==> !Fails(pages[from + n - 1]))
      && (Fetch(pages, from).Ok? ==>
            !pages[from + n - 1].data.value.has_more &&
            Fetch(pages, from) == Ok(Concat(pages[from..from + n])))
  {
    ReadPagesContinue(pages, from);
    FetchOkIffLastOk(pages, from);
    if Fetch(pages, from).Ok? {
      FetchConcatenates(pages, from);
    }
  }

  lemma PrependAssoc(a: seq<FeishuRecord>, b: seq<FeishuRecord>, r: Result<seq<FeishuRecord>, string>)
    ensures Prepend(a, Prepend(b, r)) == Prepend(a + b, r)
  {
    if r.Ok? {
      assert a + (b + r.value) == (a + b) + r.value;
    }
  }

  /** One request of the loop: a failing page ends it, a page without more ends it with its items, any other page prepends its items. */
  lemma FetchStep(pages: seq<Page>, i: nat)
    requires Finite(pages) && i < |pages|
    ensures Fails(pages[i]) ==> Fetch(pages, i) == Err(FailureOf(pages[i])) && Requests(pages, i) == 1
    ensures !Stops(pages[i]) ==>
              && i + 1 < |pages| && Requests(pages, i) == 1 + Requests(pages, i + 1)
              && Fetch(pages, i) == Prepend(ItemsOf(pages[i].data.value), Fetch(pages, i + 1))
    ensures !Fails(pages[i]) && Stops(pages[i]) ==>
              Fetch(pages, i) == Ok(ItemsOf(pages[i].data.value)) && Requests(pages, i) == 1
  {
  }

  /** The tokens the first `n` requests carry: none on the first, then each page's usable `page_token`. */
  function SentTokens(pages: seq<Page>, n: nat): (r: seq<Option<string>>)
    requires n <= |pages|
    ensures |r| == n && (n > 0 ==> r[0] == None)
    ensures forall j :: 0 < j < n ==> r[j] == NextToken(pages[j - 1])
  {
    if n == 0 then []
    else if n == 1 then [None]
    else SentTokens(pages, n - 1) + [NextToken(pages[n - 2])]
  }

  /** After a page that succeeds, the items read so far grow by its items and the loop goes on exactly when it says `has_more`. */
  lemma ReadStep(pages: seq<Page>, i: nat, read: seq<FeishuRecord>)
    requires Finite(pages) && i < |pages| && !Fails(pages[i])
    requires Fetch(pages, 0) == Prepend(read, Fetch(pages, i)) && Requests(pages, 0) == i + Requests(pages, i)
    ensures var page := pages[i].data.value;
      && (page.has_more ==>
            && i + 1 < |pages|
            && Fetch(pages, 0) == Prepend(read + ItemsOf(page), Fetch(pages, i + 1))
            && Requests(pages, 0) == i + 1 + Requests(pages, i + 1))
      && (!page.has_more ==> Fetch(pages, 0) == Ok(read + ItemsOf(page)) && Requests(pages, 0) == i + 1)
  {
    FetchStep(pages, i);
    if pages[i].data.value.has_more {
      PrependAssoc(read, ItemsOf(pages[i].data.value), Fetch(pages, i + 1));
    }
  }

  /** `getPendingRecords`: the records of all pages, parsed, with nulls dropped. */
  function PendingRecords(pages: seq<Page>, names: FeishuFields, localDate: int -> string)
    : Result<seq<FeishuRecordData>, string>
    requires Finite(pages)
  {
    var raw := Fetch(pages, 0);
    if raw.Ok? then Ok(ParseAll(raw.value, names, localDate)) else Err(raw.error)
  }

  /**
   * `getPendingRecords`: the pagination loop, then the records parsed with
   * nulls dropped. `pages[i]` is the reply to the `i`-th request. Besides the
   * result it returns the page token each request carried (`None` when the
   * request body has no `page_token`).
   */
  method GetPendingRecords(pages: seq<Page>, names: FeishuFields, localDate: int -> string)
    returns (r: Result<seq<FeishuRecordData>, string>, tokens: seq<Option<string>>)
    requires Finite(pages)
    ensures r == PendingRecords(pages, names, localDate)
    ensures |tokens| == Requests(pages, 0)
    ensures forall i :: 0 < i < |tokens| ==> !Fails(pages[i - 1]) && tokens[i] == NextToken(pages[i - 1])
    ensures tokens[0] == None
  {
    var allRecords;
    allRecords, tokens := FetchAllPages(pages);
    ReadPagesContinue(pages, 0);
    if allRecords.Err? {
      return Err(allRecords.error), tokens;
    }
    r := Ok(ParseAll(allRecords.value, names, localDate));
  }

  /** The pagination loop: the items of every page read, or the failure of the last one. */
  method FetchAllPages(pages: seq<Page>) returns (r: Result<seq<FeishuRecord>, string>, tokens: seq<Option<string>>)
    requires Finite(pages)
    ensures r == Fetch(pages, 0)
    ensures |tokens| == Requests(pages, 0) && tokens == SentTokens(pages, |tokens|)
  {
    var allRecords: seq<FeishuRecord> := [];
    var pageToken: Option<string> := None;
    var hasMore := true;
    var i := 0;
    tokens := [];
    if Fetch(pages, 0).Ok? {
      assert allRecords + Fetch(pages, 0).value == Fetch(pages, 0).value;
    }
    while hasMore
      invariant 0 <= i <= |pages| && |tokens| == i
      invariant i > 0 ==> !Fails(pages[i - 1])
      invariant hasMore ==> i < |pages| && Fetch(pages, 0) == Prepend(allRecords, Fetch(pages, i)) &&
                            Requests(pages, 0) == i + Requests(pages, i)
      invariant !hasMore ==> i > 0 && Fetch(pages, 0) == Ok(allRecords) && Requests(pages, 0) == i
      invariant pageToken == if i == 0 then None else pages[i - 1].data.value.page_token
      invariant tokens == SentTokens(pages, i)
      decreases |pages| - i
    {
      var sent := if pageToken.Some? && pageToken.value != "" then pageToken else None;
      tokens := tokens + [sent];
      var p := pages[i];
      var response := Request(p);
      if response.Err? || response.value.None? {
        FetchStep(pages, i);
        return Err(FailureOf(p)), tokens;
      }
      var page := response.value.value;
      ReadStep(pages, i, allRecords);
      allRecords := allRecords + ItemsOf(page);
      hasMore := page.has_more;
      pageToken := page.page_token;
      i := i + 1;
    }
    r := Ok(allRecords);
  }
}
