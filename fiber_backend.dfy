/**
  examples/fiber-backend-with-monitoring/main.go: the example backend the
  stress test drives. Modelled are the decisions its handlers make (which
  requests are rejected, the document a create stores, the paging of list
  and search) and what its Prometheus middleware records per request.

  The database is a parameter of each handler (an insert that may fail, a
  find that may fail or fail to decode); the clock and the fresh ObjectID
  are parameters; HTTP routing and JSON parsing are not part of this model
  (a body that does not parse is `None`).
*/
module FiberBackend {
  import opened Wrappers
  import opened GoStrings

  /** `CreateMailRequest`. */
  datatype CreateMailRequest = CreateMailRequest(
    userId: string,
    from: string,
    to: seq<string>,
    cc: seq<string>,
    bcc: seq<string>,
    subject: string,
    content: string,
    mailType: string,
    replyTo: string)

  /** `Mail` as the backend stores it; times are nanosecond counts. */
  datatype Mail = Mail(
    id: string,
    userId: string,
    from: string,
    to: seq<string>,
    cc: seq<string>,
    bcc: seq<string>,
    subject: string,
    content: string,
    mailType: string,
    replyTo: string,
    createdAt: int,
    updatedAt: int)

  /** What a handler answers: a status and a JSON body. */
  datatype Body =
    | ErrorBody(message: string)
    | MailBody(mail: Mail)
    | PageBody(data: seq<Mail>, query: Option<string>, page: int, limit: int, total: int)

  datatype Response = Response(status: int, body: Body)

  // ---------------------------------------------------------------------
  // Create

  /** The required fields of a create request. */
  predicate Complete(req: CreateMailRequest) {
    req.userId != "" && req.from != "" && |req.to| > 0 && req.subject != ""
  }

  /** The document `createMailHandler` inserts. */
  function NewMail(req: CreateMailRequest, id: string, now: int): Mail {
    Mail(id, req.userId, req.from, req.to, req.cc, req.bcc, req.subject, req.content,
         if req.mailType == "" then "sent" else req.mailType, req.replyTo, now, now)
  }

  /** `createMailHandler`: `insert` is `InsertOne`, giving its error. */
  function CreateMail(body: Option<CreateMailRequest>, id: string, now: int,
                      insert: Mail -> Option<string>): Response {
    match body
    case None => Response(400, ErrorBody("Invalid request body"))
    case Some(req) =>
      if !Complete(req) then Response(400, ErrorBody("Missing required fields"))
      else
        var mail := NewMail(req, id, now);
        if insert(mail).Some? then Response(500, ErrorBody("Failed to create mail"))
        else Response(201, MailBody(mail))
  }

  /** A create is refused with 400 exactly when the body does not parse or
      a required field is missing; it fails with 500 exactly when the
      insert of a complete request fails; otherwise it answers 201. */
  lemma CreateStatuses(body: Option<CreateMailRequest>, id: string, now: int, insert: Mail -> Option<string>)
    ensures var r := CreateMail(body, id, now, insert);
      && (r.status == 400 <==> body.None? || !Complete(body.value))
      && (r.status == 500 <==> body.Some? && Complete(body.value) && insert(NewMail(body.value, id, now)).Some?)
      && (r.status == 201 <==> body.Some? && Complete(body.value) && insert(NewMail(body.value, id, now)).None?)
      && (r.status == 400 || r.status == 500 || r.status == 201)
      && (r.status != 201 <==> r.body.ErrorBody?)
  {
  }

  /** The stored document copies the request, has a type ("sent" when the
      request gave none), and was created and updated at the same time. */
  lemma CreatedDocument(req: CreateMailRequest, id: string, now: int, insert: Mail -> Option<string>)
    requires Complete(req) && insert(NewMail(req, id, now)).None?
    ensures var r := CreateMail(Some(req), id, now, insert);
      && r.status == 201 && r.body.MailBody?
      && var m := r.body.mail;
      && m.id == id && m.userId == req.userId && m.from == req.from && m.to == req.to
      && m.cc == req.cc && m.bcc == req.bcc && m.subject == req.subject && m.content == req.content
      && m.replyTo == req.replyTo
      && m.mailType != "" && (req.mailType != "" ==> m.mailType == req.mailType)
      && (req.mailType == "" ==> m.mailType == "sent")
      && m.createdAt == m.updatedAt == now
  {
  }

  // ---------------------------------------------------------------------
  // Paging

  /** `c.QueryInt(key, default)`: the raw query value read by
      `strconv.Atoi`, or the default when that fails (an absent key reads
      as the empty text). */
  function QueryInt(raw: string, default: int): int {
    match Atoi(raw)
    case Some(v) => v
    case None => default
  }

  /** Any 64-bit number written in decimal reads back as itself; nothing
      written reads as the default. */
  lemma QueryIntReads(n: int, default: int)
    requires InInt64(n)
    ensures QueryInt(IntToString(n), default) == n
    ensures QueryInt("", default) == default
  {
    AtoiItoa(n);
  }

  /** Go's `int` arithmetic: the result wrapped into 64 bits, the one int64
      value congruent to `x` modulo 2^64. */
  function Wrap64(x: int): (r: int)
    ensures InInt64(r)
    ensures (r - x) % 0x1_0000_0000_0000_0000 == 0
    ensures InInt64(x) ==> r == x
  {
    (x - MinInt64) % 0x1_0000_0000_0000_0000 + MinInt64
  }

  /** Wrapping is determined by the two's-complement rule: an int64 value
      congruent to `x` modulo 2^64 is `Wrap64(x)`. */
  lemma Wrap64Unique(x: int, y: int)
    requires InInt64(y) && (y - x) % 0x1_0000_0000_0000_0000 == 0
    ensures y == Wrap64(x)
  {
    var w := Wrap64(x);
    var d := (y - x) / 0x1_0000_0000_0000_0000;
    var e := (w - x) / 0x1_0000_0000_0000_0000;
    assert y - x == d * 0x1_0000_0000_0000_0000;
    assert w - x == e * 0x1_0000_0000_0000_0000;
    assert y - w == (d - e) * 0x1_0000_0000_0000_0000;
  }

  /** `skip := (page - 1) * limit`, with no clamping. */
  function Skip(page: int, limit: int): int {
    Wrap64(Wrap64(page - 1) * limit)
  }

  /** For pages and limits of ordinary size the skip is exact; the first
      page skips nothing, and a page of zero or below with a positive limit
      asks for a negative skip. */
  lemma SkipArithmetic(page: int, limit: int)
    requires -0x8000_0000 <= page <= 0x8000_0000 && -0x8000_0000 <= limit <= 0x8000_0000
    ensures Skip(page, limit) == (page - 1) * limit
    ensures page == 1 ==> Skip(page, limit) == 0
    ensures page <= 0 && limit > 0 ==> Skip(page, limit) < 0
    ensures page > 1 && limit > 0 ==> Skip(page, limit) >= limit
  {
    SmallProduct(page - 1, limit);
    if page <= 0 && limit > 0 {
      var n: nat := 1 - page;
      assert (page - 1) * limit == -(n * limit);
      Times(1, 1, n, limit);
    }
    if page > 1 && limit > 0 {
      var n: nat := page - 1;
      Times(1, limit, n, limit);
    }
  }

  lemma SmallProduct(a: int, b: int)
    requires -0x8000_0001 <= a <= 0x8000_0000 && -0x8000_0000 <= b <= 0x8000_0000
    ensures InInt64(a * b)
  {
    var ua: nat := if a < 0 then -a else a;
    var ub: nat := if b < 0 then -b else b;
    Times(ua, ub, 0x8000_0001, 0x8000_0000);
    assert a * b == ua * ub || a * b == -(ua * ub);
  }

  /** Multiplication of naturals is monotonic in both arguments. */
  lemma Times(x: nat, y: nat, mx: nat, my: nat)
    requires x <= mx && y <= my
    ensures x * y <= mx * my
  {
    assert mx * my - x * y == (mx - x) * my + x * (my - y);
  }

  /** The find a handler asks the store for: the owner, the search text
      (matched case-insensitively against subject and content), how many
      documents to skip and at most how many to return, newest first. */
  datatype Query = Query(userId: string, search: Option<string>, skip: int, limit: int)

  /** What the store answers: `Find` failed, `cursor.All` failed, or the
      documents found. */
  datatype FindOutcome = FindFailed | DecodeFailed | Found(mails: seq<Mail>)

  /** The answer to a find, for the handler whose find error is `findError`. */
  function Answer(q: Query, outcome: FindOutcome, findError: string, page: int): Response {
    match outcome
    case FindFailed => Response(500, ErrorBody(findError))
    case DecodeFailed => Response(500, ErrorBody("Failed to decode mails"))
    case Found(mails) => Response(200, PageBody(mails, q.search, page, q.limit, |mails|))
  }

  /** `listMailsHandler`: `find` is `Find` followed by `cursor.All`. */
  function ListMails(userId: string, pageRaw: string, limitRaw: string, find: Query -> FindOutcome): Response {
    if userId == "" then Response(400, ErrorBody("userId is required"))
    else
      var page := QueryInt(pageRaw, 1);
      var limit := QueryInt(limitRaw, 20);
      var q := Query(userId, None, Skip(page, limit), limit);
      Answer(q, find(q), "Failed to fetch mails", page)
  }

  /** `searchMailsHandler`. */
  function SearchMails(userId: string, query: string, pageRaw: string, limitRaw: string,
                       find: Query -> FindOutcome): Response {
    if userId == "" || query == "" then Response(400, ErrorBody("userId and query are required"))
    else
      var page := QueryInt(pageRaw, 1);
      var limit := QueryInt(limitRaw, 20);
      var q := Query(userId, Some(query), Skip(page, limit), limit);
      Answer(q, find(q), "Failed to search mails", page)
  }

  /** A list is refused exactly without an owner; otherwise the store is
      asked for the owner's page (page 1 of 20 when the query gives none),
      and a found page reports as its total the number of documents it
      returns. */
  lemma ListBehaviour(userId: string, pageRaw: string, limitRaw: string, find: Query -> FindOutcome)
    ensures var r := ListMails(userId, pageRaw, limitRaw, find);
      && (r.status == 400 <==> userId == "")
      && (userId != "" ==>
            var page := QueryInt(pageRaw, 1);
            var limit := QueryInt(limitRaw, 20);
            var q := Query(userId, None, Skip(page, limit), limit);
            && (r.status == 500 <==> !find(q).Found?)
            && (find(q).Found? ==> r == Response(200, PageBody(find(q).mails, None, page, limit, |find(q).mails|))))
    ensures TotalIsSize(ListMails(userId, pageRaw, limitRaw, find))
    ensures userId != "" && pageRaw == "" && limitRaw == "" ==>
      ListMails(userId, pageRaw, limitRaw, find) == Answer(Query(userId, None, 0, 20), find(Query(userId, None, 0, 20)), "Failed to fetch mails", 1)
  {
    QueryIntReads(0, 1);
    QueryIntReads(0, 20);
  }

  /** A page body's total is the number of documents it carries. */
  predicate TotalIsSize(r: Response) {
    r.body.PageBody? ==> r.body.total == |r.body.data|
  }

  /** A search is refused exactly without an owner or a search text;
      otherwise it pages like a list and echoes the search text. */
  lemma SearchBehaviour(userId: string, query: string, pageRaw: string, limitRaw: string, find: Query -> FindOutcome)
    ensures var r := SearchMails(userId, query, pageRaw, limitRaw, find);
      && (r.status == 400 <==> userId == "" || query == "")
      && TotalIsSize(r)
      && (userId != "" && query != "" ==>
            var page := QueryInt(pageRaw, 1);
            var limit := QueryInt(limitRaw, 20);
            var q := Query(userId, Some(query), Skip(page, limit), limit);
            && (r.status == 500 <==> !find(q).Found?)
            && (find(q).Found? ==> r.body.PageBody? && r.body.query == Some(query) && r.body.data == find(q).mails))
  {
  }

  // ---------------------------------------------------------------------
  // The Prometheus middleware

  /** What the middleware records about one request (the active connection
      gauge goes up and back down around the request, and is left out). */
  datatype MetricEvent =
    | CountRequest(verb: string, path: string, status: string)
    | ObserveDuration(verb: string, path: string, seconds: real)
    | CountError(verb: string, path: string, status: string)

  /** The status label as written, `string(rune(status))`: `rune` keeps
      the low 32 bits of the status as a signed value, and `string` makes
      the one character with that code point, or U+FFFD when it is no code
      point.  A negative low word is never one, so the unsigned low word
      decides the same way. */
  function RuneLabel(status: int): (text: string)
    ensures |text| == 1
    ensures 0 <= status <= 0x10_FFFF && !(0xD800 <= status < 0xE000) ==> text == [status as char]
  {
    var low := status % 0x1_0000_0000;
    if 0 <= low < 0xD800 || 0xE000 <= low <= 0x10_FFFF then [low as char] else "\U{FFFD}"
  }

  /** The label as written is never the decimal status: for status 200 it
      is "È", and any status of two digits or more gets one character. */
  lemma RuneLabelIsNotDecimal(status: int)
    requires status >= 10
    ensures RuneLabel(status) != IntToString(status)
    ensures RuneLabel(200) == "È" && RuneLabel(404) == "Ɣ"
  {
    assert |NatToString(status)| >= 2;
  }

  /** The status label as evidently intended: the status in decimal. */
  function StatusLabel(status: int): string {
    IntToString(status)
  }

  /** The intended label reads back as the status it labels, so distinct
      statuses get distinct labels. */
  lemma StatusLabelReadsBack(status: int)
    requires InInt64(status)
    ensures Atoi(StatusLabel(status)) == Some(status)
    ensures StatusLabel(200) == "200"
  {
    AtoiItoa(status);
    assert NatToString(200) == NatToString(20) + ['0'];
    assert NatToString(20) == NatToString(2) + ['0'];
  }

  /** `PrometheusMiddleware` after the handler ran, with the intended label. */
  function Middleware(verb: string, path: string, status: int, seconds: real): seq<MetricEvent> {
    if path == "/metrics" then []
    else
      [CountRequest(verb, path, StatusLabel(status)), ObserveDuration(verb, path, seconds)]
      + (if status >= 400 then [CountError(verb, path, StatusLabel(status))] else [])
  }

  /** The metrics endpoint is never counted; every other request is counted
      once and timed once, and counted as an error exactly when its status
      is 400 or above. */
  lemma MiddlewareCounts(verb: string, path: string, status: int, seconds: real)
    ensures path == "/metrics" <==> Middleware(verb, path, status, seconds) == []
    ensures path != "/metrics" ==>
      && CountRequest(verb, path, StatusLabel(status)) in Middleware(verb, path, status, seconds)
      && ObserveDuration(verb, path, seconds) in Middleware(verb, path, status, seconds)
    ensures (exists e :: e in Middleware(verb, path, status, seconds) && e.CountError?) <==>
      path != "/metrics" && status >= 400
    ensures |Middleware(verb, path, status, seconds)| <= 3
  {
    var es := Middleware(verb, path, status, seconds);
    if path != "/metrics" && status >= 400 {
      assert es[2] in es;
    }
  }
}
