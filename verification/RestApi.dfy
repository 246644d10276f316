/** The REST source connector (apps/connectors/sources/rest_api.py): sending with one
    re-authentication, reading the records out of a response, and the page generator. */
module RestApi {
  import opened Prelude
  import opened Paths

  const MALFORMED := Error(MalformedResponseError, false)

  /** What one send leads to: an answer, a transport failure, or a refusal before anything is sent
      (the outbound policy, or a provider without credentials). */
  datatype SendOutcome =
    | Answer(status: nat, body: Bytes)
    | TransportFailure
    | Refused(err: Error)

  predicate IsRefusal(o: SendOutcome) {
    o.Refused? ==> !o.err.category.PageLimitExceededError?
  }

  type Outcome = o: SendOutcome | IsRefusal(o) witness TransportFailure

  /** What the k-th send leads to when it asks for a page. */
  type Wire = (nat, nat) -> Outcome

  /** `max_pages` and `start_page` are whatever the configuration holds; they are validated when
      the generator starts. `parse` is `json.loads`. */
  datatype Config = Config(
    startPage: int,
    maxPages: int,
    pageSize: Option<int>,
    retainEmpty: bool,
    recordsPath: string,
    hasProvider: bool,
    parse: Bytes -> Option<Json>)

  /** The configured start page; a non-positive one is refused before any request. */
  function StartPage(config: Config): nat {
    if config.startPage >= 1 then config.startPage else 1
  }

  datatype Reply = Reply(status: nat, body: Bytes)

  predicate AsksForLogin(o: Outcome, hasProvider: bool) {
    hasProvider && o.Answer? && (o.status == 401 || o.status == 403)
  }

  /** What happens to a request and to the provider: it is prepared by the provider, sent with the
      number of the page it asks for (or refused on the way), and the provider's cached credentials are
      invalidated. */
  datatype Call = Prepared | Sent(page: nat) | Invalidated

  /** How many sends the request for `page` takes if `sent` went before. */
  function SendsOf(config: Config, wire: Wire, sent: nat, page: nat): (sends: nat)
    ensures 1 <= sends <= 2
  {
    if AsksForLogin(wire(sent, page), config.hasProvider) then 2 else 1
  }

  /** One request, or two when the first is answered 401 or 403 and there is a provider to
      re-authenticate with. The provider is told to forget its credentials before it prepares the
      second request, and the last answer decides: a 429, a server error or a failure in transit may be
      retried, any other error may not. */
  method SendWithAuthRetry(config: Config, wire: Wire, sent: nat, page: nat)
    returns (r: Result<Reply, Error>, sent': nat, calls: seq<Call>)
    ensures
      var first := wire(sent, page);
      var again := config.hasProvider && first.Answer? && (first.status == 401 || first.status == 403);
      && sent' == sent + (if again then 2 else 1) == sent + SendsOf(config, wire, sent, page)
      && calls == (if config.hasProvider then [Prepared] else []) + [Sent(page)]
                  + (if again then [Invalidated, Prepared, Sent(page)] else [])
    ensures
      match wire(sent' - 1, page)
      case TransportFailure => r == Err(Error(FetchFailed, true))
      case Refused(err) => r == Err(err)
      case Answer(status, body) =>
        if status < 400 then r == Ok(Reply(status, body))
        else r == Err(Error(FetchFailed, status == 429 || 500 <= status < 600))
    ensures r.Err? ==> !r.error.category.PageLimitExceededError?
  {
    calls := if config.hasProvider then [Prepared] else [];
    var outcome := wire(sent, page);
    sent', calls := sent + 1, calls + [Sent(page)];
    if outcome.Answer? && (outcome.status == 401 || outcome.status == 403) && config.hasProvider {
      calls := calls + [Invalidated] + [Prepared];
      outcome := wire(sent', page);
      sent', calls := sent' + 1, calls + [Sent(page)];
    }
    if outcome.TransportFailure? {
      return Err(Error(FetchFailed, true)), sent', calls;
    }
    if outcome.Refused? {
      return Err(outcome.err), sent', calls;
    }
    if outcome.status == 429 || 500 <= outcome.status < 600 {
      return Err(Error(FetchFailed, true)), sent', calls;
    }
    if outcome.status >= 400 {
      return Err(Error(FetchFailed, false)), sent', calls;
    }
    return Ok(Reply(outcome.status, outcome.body)), sent', calls;
  }

  /** The response is the list of these records, or an object that has it under the path. */
  predicate HoldsRecords(data: Json, path: string, records: seq<Json>) {
    data == JArray(records) || (data.JObject? && Lookup(data, path) == Some(JArray(records)))
  }

  /** All the records, in order, wherever the response holds a list; otherwise the error. */
  function ExtractRecords(data: Json, path: string): (r: Result<seq<Json>, Error>)
    ensures forall records :: r == Ok(records) <==> HoldsRecords(data, path, records)
    ensures r.Err? ==> r.error == Error(MalformedResponseError, false)
  {
    if data.JArray? then Ok(data.items)
    else if !data.JObject? then Err(MALFORMED)
    else
      match Lookup(data, path)
      case None => Err(MALFORMED)
      case Some(value) => if value.JArray? then Ok(value.items) else Err(MALFORMED)
  }

  /** The body is JSON that holds these records where the configuration says. */
  predicate ReadsAs(config: Config, body: Bytes, records: seq<Json>) {
    config.parse(body).Some? && HoldsRecords(config.parse(body).value, config.recordsPath, records)
  }

  function ParseRecords(config: Config, body: Bytes): (r: Result<seq<Json>, Error>)
    ensures forall records :: r == Ok(records) <==> ReadsAs(config, body, records)
    ensures r.Err? ==> r.error == Error(MalformedResponseError, false)
  {
    match config.parse(body)
    case None => Err(MALFORMED)
    case Some(data) => ExtractRecords(data, config.recordsPath)
  }

  predicate IsShort(config: Config, records: seq<Json>) {
    config.pageSize.Some? && |records| < config.pageSize.value
  }

  /** Some answer on the wire was read as these records. */
  ghost predicate Heard(config: Config, wire: Wire, records: seq<Json>, body: Bytes) {
    exists k, page :: HeardAt(config, wire, records, body, k, page)
  }

  /** The k-th send, which asked for `page`, was answered without an error, and reads as these records. */
  predicate HeardAt(config: Config, wire: Wire, records: seq<Json>, body: Bytes, k: nat, page: nat) {
    var answer := wire(k, page);
    answer.Answer? && answer.status < 400 && answer.body == body && ReadsAs(config, body, records)
  }

  predicate EmptyAt(config: Config, wire: Wire, k: nat, page: nat) {
    wire(k, page).Answer? && HeardAt(config, wire, [], wire(k, page).body, k, page)
  }

  lemma {:induction false} HeardEmpty(config: Config, wire: Wire, body: Bytes, k: nat, page: nat)
    requires HeardAt(config, wire, [], body, k, page)
    ensures EmptyAt(config, wire, k, page)
  {
    hide ReadsAs;
  }

  lemma {:induction false} HeardSome(config: Config, wire: Wire, records: seq<Json>, body: Bytes, k: nat, page: nat)
    requires HeardAt(config, wire, records, body, k, page)
    ensures Heard(config, wire, records, body)
  {
    hide HeardAt;
  }

  /** Why a fetch may fail other than by its page cap: the configuration, or an answer on the wire
      that is an error or cannot be read. */
  ghost predicate CanFail(config: Config, wire: Wire, err: Error) {
    || (err == Error(ConfigurationError, false) && (config.maxPages < 1 || config.startPage < 1))
    || exists k, page :: FailsAt(config, wire, err, k, page)
  }

  ghost predicate FailsAt(config: Config, wire: Wire, err: Error, k: nat, page: nat) {
    match wire(k, page)
    case TransportFailure => err == Error(FetchFailed, true)
    case Refused(e) => err == e
    case Answer(status, body) =>
      if status >= 400 then err == Error(FetchFailed, status == 429 || 500 <= status < 600)
      else err == Error(MalformedResponseError, false) && forall records :: !ReadsAs(config, body, records)
  }

  lemma {:induction false} BadConfigFails(config: Config, wire: Wire)
    requires config.maxPages < 1 || config.startPage < 1
    ensures CanFail(config, wire, Error(ConfigurationError, false))
  {
    hide FailsAt;
  }

  lemma {:induction false} FailsSome(config: Config, wire: Wire, err: Error, k: nat, page: nat)
    requires FailsAt(config, wire, err, k, page)
    ensures CanFail(config, wire, err)
  {
    hide FailsAt;
  }

  /** How many sends the first `n` requests of a fetch from page `first` take. */
  function SendsFor(config: Config, wire: Wire, first: nat, n: nat): (sends: nat)
    ensures n <= sends <= 2 * n
  {
    if n == 0 then 0
    else
      var before := SendsFor(config, wire, first, n - 1);
      before + SendsOf(config, wire, before, first + n - 1)
  }

  /** The i-th page of a fetch is what the last send of the i-th request was answered with. */
  predicate PageHeard(config: Config, wire: Wire, first: nat, f: FetchResult, i: nat) {
    HeardAt(config, wire, f.records, f.body, SendsFor(config, wire, first, i + 1) - 1, first + i)
  }

  datatype FetchResult = FetchResult(records: seq<Json>, nextCursor: Option<nat>, body: Bytes, cursorUsed: nat)

  datatype Step =
    | Yield(result: FetchResult)
    | Stop
    | Fail(err: Error)

  /** Where the generator is suspended: before its first step, at the yield of an empty page, at
      the yield of a page with records, or finished. */
  datatype Point = NotStarted | AtEmptyYield | AtYield(short: bool) | Closed

  /** Where the generator is suspended once it has yielded `records`. */
  function YieldPoint(config: Config, records: seq<Json>): Point {
    if records == [] then AtEmptyYield else AtYield(IsShort(config, records))
  }

  /** The generator object `fetch` returns; its fields are the locals of the generator body. */
  class PageGenerator {
    const config: Config
    const wire: Wire
    const first: nat
    var page: nat
    var pagesYielded: nat
    var records: seq<Json>
    var body: Bytes
    var point: Point
    var sent: nat
    ghost var pages: seq<FetchResult>

    ghost predicate Valid()
      reads this
    {
      && Bounded()
      && (!point.Closed? ==> |pages| == pagesYielded + (if point.NotStarted? then 0 else 1))
      && (point.NotStarted? ==> page == first && sent == 0 && pagesYielded == 0)
      && (point.AtYield? || point.AtEmptyYield? ==>
            && config.maxPages >= 1
            && page == first + pagesYielded && pages[pagesYielded].records == records)
      && (!point.Closed? ==> sent == SendsFor(config, wire, first, |pages|))
      && (point.AtYield? ==> records != [] && point.short == IsShort(config, records))
      && (point.AtEmptyYield? ==> records == [])
    }

    /** The bounds of one fetch: at most `max_pages` pages, at most two sends for each page asked
        for, consecutive pages, and only the last may be empty or short. */
    ghost predicate Bounded()
      reads this
    {
      && (|pages| > 0 ==> |pages| <= config.maxPages)
      && sent <= 2 * (|pages| + 1)
      && (forall i | 0 <= i < |pages| :: Consistent(pages[i], first + i) && PageHeard(config, wire, first, pages[i], i))
      && (forall i | 0 <= i < |pages| - 1 :: pages[i].records != [] && pages[i].nextCursor.Some?)
    }

    constructor (config: Config, wire: Wire, cursor: Option<nat>)
      ensures Valid() && point.NotStarted? && pages == []
      ensures this.config == config && this.wire == wire && first == page
      ensures page == if cursor.Some? then cursor.value else StartPage(config)
    {
      this.config, this.wire := config, wire;
      first := if cursor.Some? then cursor.value else StartPage(config);
      page := if cursor.Some? then cursor.value else StartPage(config);
      pagesYielded, records, body, point, sent, pages := 0, [], [], NotStarted, 0, [];
    }

    /** The next fetch is of the first page, or of the page after a full one while the cap allows it. */
    predicate WillFetch()
      reads this
    {
      point.NotStarted? || (point == AtYield(false) && pagesYielded + 1 < config.maxPages)
    }

    /** The part of the loop body between a yield and the next request; None goes on to the request. */
    method ResumeAfterYield() returns (r: Option<Step>)
      requires Valid()
      modifies this`page, this`pagesYielded, this`point
      ensures r.Some? ==> Valid() && point.Closed? && !r.value.Yield?
      ensures r == Some(Fail(PAGE_LIMIT_EXCEEDED))
         <==> old(point) == AtYield(false) && old(pagesYielded) + 1 >= config.maxPages
      ensures r == Some(Stop) <==> old(point).Closed? || old(point).AtEmptyYield? || old(point) == AtYield(true)
      ensures r.Some? && r.value.Fail? && r.value.err != PAGE_LIMIT_EXCEEDED ==>
        r.value.err == CONFIGURATION_ERROR && old(point).NotStarted? && (config.maxPages < 1 || config.startPage < 1)
      ensures r.None? ==>
        && old(WillFetch()) && config.maxPages >= 1 && (old(point).NotStarted? ==> config.startPage >= 1)
        && point == old(point)
        && page == old(page) + (if point.NotStarted? then 0 else 1)
        && pagesYielded == old(pagesYielded) + (if point.NotStarted? then 0 else 1)
    {
      match point {
        case Closed =>
          return Some(Stop);
        case NotStarted =>
          if config.maxPages < 1 || config.startPage < 1 {
            point := Closed;
            return Some(Fail(CONFIGURATION_ERROR));
          }
        case AtEmptyYield =>
          point := Closed;
          return Some(Stop);
        case AtYield(short) =>
          pagesYielded := pagesYielded + 1;
          if short {
            point := Closed;
            return Some(Stop);
          }
          if pagesYielded >= config.maxPages {
            point := Closed;
            return Some(Fail(PAGE_LIMIT_EXCEEDED));
          }
          page := page + 1;
      }
      return None;
    }

    /** The state between `ResumeAfterYield` and the end of the loop body, before or after the request. */
    ghost predicate Fetchable(requests: nat)
      reads this
    {
      && config.maxPages >= 1
      && page == first + pagesYielded && |pages| == pagesYielded < config.maxPages
      && !point.Closed?
      && sent == SendsFor(config, wire, first, |pages| + requests)
      && (forall i | 0 <= i < |pages| ::
          Consistent(pages[i], first + i) && PageHeard(config, wire, first, pages[i], i)
          && pages[i].records != [] && pages[i].nextCursor.Some?)
    }

    /** A result carries its page, and a next cursor unless it is empty or shorter than the page size. */
    predicate Consistent(f: FetchResult, expected: nat) {
      && f.cursorUsed == expected
      && f.nextCursor == if f.records == [] || (config.pageSize.Some? && |f.records| < config.pageSize.value) then None
                         else Some(expected + 1)
    }

    /** Send the request for the current page and read its records. */
    method ReadPage() returns (r: Result<(), Error>)
      modifies this`sent, this`body, this`records
      ensures sent == old(sent) + SendsOf(config, wire, old(sent), page)
      ensures r.Ok? ==> HeardAt(config, wire, records, body, sent - 1, page)
      ensures r.Err? ==> !r.error.category.PageLimitExceededError? && FailsAt(config, wire, r.error, sent - 1, page)
    {
      hide Lookup, HoldsRecords;
      var reply, sent', calls := SendWithAuthRetry(config, wire, sent, page);
      sent := sent';
      if reply.Err? {
        return Err(reply.error);
      }
      body := reply.value.body;
      var parsed := ParseRecords(config, body);
      if parsed.Err? {
        return Err(parsed.error);
      }
      records := parsed.value;
      return Ok(());
    }

    /** Suspend at a yield of the current page. */
    method YieldPage() returns (result: FetchResult)
      requires Fetchable(1) && HeardAt(config, wire, records, body, sent - 1, page)
      modifies this`pages, this`point
      ensures Valid() && point == YieldPoint(config, records) && Consistent(result, page)
      ensures result.cursorUsed == page && result.records == records && result.body == body
      ensures pages == old(pages) + [result]
    {
      hide HeardAt, SendsOf, ReadsAs;
      if records == [] {
        result := FetchResult([], None, body, page);
        point := AtEmptyYield;
      } else {
        var isLastPage := IsShort(config, records);
        result := FetchResult(records, if isLastPage then None else Some(page + 1), body, page);
        point := AtYield(isLastPage);
      }
      pages := pages + [result];
      assert forall i | 0 <= i < |pages| - 1 :: pages[i] == old(pages)[i];
    }

    method FetchPage() returns (r: Step)
      requires Fetchable(0)
      modifies this
      ensures Valid() && page == old(page) && pagesYielded == old(pagesYielded)
      ensures sent == old(sent) + SendsOf(config, wire, old(sent), page)
      ensures pages == old(pages) + (if r.Yield? then [r.result] else [])
      ensures !r.Yield? ==> point.Closed?
      ensures r.Yield? ==>
        && point == YieldPoint(config, records) && Consistent(r.result, page)
        && r.result.cursorUsed == page && r.result.records == records && r.result.body == body
        && (records == [] ==> config.retainEmpty)
        && HeardAt(config, wire, records, body, sent - 1, page)
      ensures r.Stop? ==> records == [] && !config.retainEmpty && HeardAt(config, wire, [], body, sent - 1, page)
      ensures r.Fail? ==> !r.err.category.PageLimitExceededError? && FailsAt(config, wire, r.err, sent - 1, page)
    {
      hide ParseRecords, HeardAt, EmptyAt, FailsAt, SendsOf;
      var read := ReadPage();
      if read.Err? {
        point := Closed;
        return Fail(read.error);
      }
      if records == [] && !config.retainEmpty {
        point := Closed;
        return Stop;
      }
      var result := YieldPage();
      return Yield(result);
    }

    /** Resume the generator up to its next yield, its end or an error. */
    method Next() returns (r: Step)
      requires Valid()
      modifies this
      ensures Valid() && (pages == [] || |pages| <= config.maxPages)
      ensures pages == old(pages) + (if r.Yield? then [r.result] else [])
      ensures !r.Yield? ==> point.Closed?
      ensures r.Yield? ==>
        && old(WillFetch()) && config.maxPages >= 1 && (old(point).NotStarted? ==> config.startPage >= 1)
        && page == old(page) + (if old(point).NotStarted? then 0 else 1)
        && pagesYielded == old(pagesYielded) + (if old(point).NotStarted? then 0 else 1)
        && point == YieldPoint(config, records) && Consistent(r.result, page)
        && r.result.cursorUsed == page && r.result.records == records && r.result.body == body
        && (records == [] ==> config.retainEmpty)
        && HeardAt(config, wire, records, body, sent - 1, page)
      // It stops after an ending page, or when it reads an empty page it does not retain.
      ensures r.Stop? ==>
        || old(point).Closed? || old(point).AtEmptyYield? || old(point) == AtYield(true)
        || (old(WillFetch()) && config.maxPages >= 1 && records == [] && !config.retainEmpty
            && sent > old(sent) && HeardAt(config, wire, [], body, sent - 1, page)
            && page == old(page) + (if old(point).NotStarted? then 0 else 1))
      // It gives up at the cap exactly when the page that filled it was neither empty nor short.
      ensures r == Fail(PAGE_LIMIT_EXCEEDED)
          <==> old(point) == AtYield(false) && old(pagesYielded) + 1 >= config.maxPages
      ensures r.Fail? && r.err != PAGE_LIMIT_EXCEEDED ==>
        && !r.err.category.PageLimitExceededError? && old(WillFetch())
        && if old(point).NotStarted? && (config.maxPages < 1 || config.startPage < 1) then
             r.err == Error(ConfigurationError, false) && sent == old(sent)
           else sent > old(sent) && FailsAt(config, wire, r.err, sent - 1, page)
      // It asks for one page, with one send, or two after a refused login.
      ensures sent == old(sent) ||
        (&& old(WillFetch()) && page == old(page) + (if old(point).NotStarted? then 0 else 1)
         && sent == old(sent) + SendsOf(config, wire, old(sent), page))
      ensures r.Yield? ==> sent > old(sent)
    {
      var early := ResumeAfterYield();
      if early.Some? {
        return early.value;
      }
      r := FetchPage();
    }
  }

  /** The last page of an extraction that was not cut off is empty or shorter than the page size. */
  predicate EndsWithLastPage(config: Config, pages: seq<FetchResult>) {
    pages != []
    && var records := pages[|pages| - 1].records;
       records == [] || (config.pageSize.Some? && |records| < config.pageSize.value)
  }

  /** One whole `fetch`: at most `max_pages` pages in a row from the start, at most two requests for
      each page asked for, and three ways to end: an empty or short page, an error, or the page-limit
      error when the cap is reached by a page that was neither; it never just stops at the cap. */
  method FetchAll(config: Config, wire: Wire, cursor: Option<nat>)
    returns (end: Step, pages: seq<FetchResult>, sent: nat)
    ensures !end.Yield?
    ensures pages == [] || |pages| <= config.maxPages
    ensures config.maxPages >= 1 ==> sent <= 2 * config.maxPages
    // Page after page from the start: each the answer to the last send of the request that asked for it.
    ensures
      var first := if cursor.Some? then cursor.value else if config.startPage >= 1 then config.startPage else 1;
      && (forall i | 0 <= i < |pages| ::
          pages[i].cursorUsed == first + i && PageHeard(config, wire, first, pages[i], i))
      && (forall i | 0 <= i < |pages| - 1 :: pages[i].nextCursor == Some(first + i + 1))
      && (pages != [] ==>
            pages[|pages| - 1].nextCursor == if EndsWithLastPage(config, pages) then None else Some(first + |pages|))
      && sent <= SendsFor(config, wire, first, |pages| + 1)
    ensures forall i | 0 <= i < |pages| - 1 ::
      pages[i].records != [] && !(config.pageSize.Some? && |pages[i].records| < config.pageSize.value)
    // An error is that of the configuration, of the request after the last page, or the page limit.
    ensures end.Fail? && end.err != PAGE_LIMIT_EXCEEDED ==>
      var first := if cursor.Some? then cursor.value else if config.startPage >= 1 then config.startPage else 1;
      if config.maxPages < 1 || config.startPage < 1 then end.err == Error(ConfigurationError, false) && pages == []
      else
        && sent == SendsFor(config, wire, first, |pages| + 1)
        && FailsAt(config, wire, end.err, sent - 1, first + |pages|)
    ensures end.Stop? ==>
      var first := if cursor.Some? then cursor.value else if config.startPage >= 1 then config.startPage else 1;
      || EndsWithLastPage(config, pages)
      || (!config.retainEmpty && |pages| < config.maxPages && sent == SendsFor(config, wire, first, |pages| + 1)
          && EmptyAt(config, wire, sent - 1, first + |pages|))
    ensures end == Fail(PAGE_LIMIT_EXCEEDED) ==> |pages| == config.maxPages && !EndsWithLastPage(config, pages)
    ensures |pages| == config.maxPages >= 1 ==>
      end == if EndsWithLastPage(config, pages) then Stop else Fail(PAGE_LIMIT_EXCEEDED)
  {
    hide ParseRecords, HeardAt, FailsAt, SendsOf, PageHeard, EmptyAt, HoldsRecords, ReadsAs;
    var gen := new PageGenerator(config, wire, cursor);
    ghost var start := gen.page;
    pages := [];
    while true
      invariant fresh(gen) && gen.Valid() && gen.config == config && gen.pages == pages && gen.first == start
      invariant !gen.point.Closed? && gen.wire == wire
      invariant gen.point.NotStarted? || |pages| <= config.maxPages
      invariant gen.point.NotStarted? || (config.maxPages >= 1 && config.startPage >= 1)
      decreases (if config.maxPages >= 1 then config.maxPages else 0) - |pages|
    {
      end := gen.Next();
      if !end.Yield? {
        if end.Stop? && !EndsWithLastPage(config, pages) {
          HeardEmpty(config, wire, gen.body, gen.sent - 1, gen.page);
        }
        return end, pages, gen.sent;
      }
      pages := pages + [end.result];
    }
  }
}
