/** The `ElnkProShortener` client object (src/ElnkProShortener.js): its
    configuration fields, the setters and `getConfig`, and the operations
    that drive the API in loops: `createShortUrl`, `createShortUrlWithRetry`,
    `createBulkShortUrls`, `deleteLink` and `bulkDeleteLinks`.

    Each HTTP call is replaced by the `Reply` it yields. A loop receives its
    replies as a function: `respond(attempt)` for the retry loop (attempts
    count from 1), `respond(i)` for the i-th input entry of a bulk loop. A
    thrown `Error` is `Failure(message)`. */
module Shortener {
  import opened Wrappers
  import opened Text
  import opened Http
  import opened Payload
  import opened Bulk
  import Query

  /** The constructor's `config` object; an absent key is `None`. */
  datatype Config = Config(apiKey: Option<string>, domainId: Option<string>, projectId: Option<string>,
                           timeout: Option<int>, baseUrl: Option<string>)

  /** What `getConfig` returns: everything but the API key. */
  datatype ConfigView = ConfigView(domainId: Option<string>, projectId: Option<string>,
                                   timeout: int, baseUrl: string)

  const DefaultTimeout := 30000
  const DefaultBaseUrl := "https://elnk.pro/api"
  const ApiKeyRequired := "API key is required"
  const UrlRequired := "Original URL is required"
  const LinkIdRequired := "Link ID is required"
  const UrlsRequired := "URLs array is required and cannot be empty"
  const LinkIdsRequired := "Link IDs array is required and cannot be empty"
  const DeletedMessage := "Link deleted successfully"
  const GiveUpMessage := "Failed to create short URL after multiple attempts"

  /** `x || null`. */
  function OrNull(x: Option<string>): (r: Option<string>)
    ensures Truthy(x) ==> r == x
    ensures !Truthy(x) ==> r == None
  {
    if Truthy(x) then x else None
  }

  // ------------------------------------------------------------------ retry spec

  datatype RetryOptions = RetryOptions(maxRetries: Option<int>, retryDelay: Option<int>)

  /** `const { maxRetries = 3, retryDelay = 1000 } = options`: a default
      applies only when the key is absent. */
  function MaxRetries(o: RetryOptions): int {
    o.maxRetries.GetOr(3)
  }

  function RetryDelay(o: RetryOptions): int {
    o.retryDelay.GetOr(1000)
  }

  /** The envelope one attempt of the retry loop ends with: what
      `createShortUrl` resolved to, or `handleError` of what it threw. */
  function AttemptEnvelope(originalUrl: string, reply: Reply): (e: Envelope)
    ensures originalUrl == "" ==> e == Failed(UrlRequired, None)
    ensures originalUrl != "" ==> e == Interpret(reply)
  {
    if originalUrl == "" then HandleError(SetupError(Some(UrlRequired))) else Interpret(reply)
  }

  /** The loop stops after a success, or after a failure whose status code is
      truthy and below 500. */
  predicate EndsRetries(e: Envelope) {
    e.Succeeded? || (e.statusCode.Some? && e.statusCode.value != 0 && e.statusCode.value < 500)
  }

  /** Which replies end the loop: a 2xx answer, or a rejection with a status
      in 1..499. A resolved non-2xx answer carries no status code, so it is
      retried like a missing response. */
  lemma EndsRetriesOn(reply: Reply)
    ensures EndsRetries(Interpret(reply)) <==>
      || (reply.Ok? && IsSuccessStatus(reply.status))
      || (reply.Threw? && reply.error.ServerError? && 0 < reply.error.status < 500)
  {
  }

  // -------------------------------------------------------------- bulk create spec

  /** A reply the client treats as success: a resolved 2xx response. */
  predicate Accepted(reply: Reply) {
    reply.Ok? && IsSuccessStatus(reply.status)
  }

  /** One entry of `failed` in `createBulkShortUrls`. */
  datatype UrlFailure = UrlFailure(url: string, error: string)

  /** The alias sent for entry i of `count` URLs. */
  function AliasFor(baseAlias: Option<string>, count: nat, i: nat): (alias: Option<string>)
    ensures alias.Some? <==> Truthy(baseAlias)
  {
    if Truthy(baseAlias) then
      Some(if count > 1 then baseAlias.value + "-" + NatToString(i + 1) else baseAlias.value)
    else None
  }

  /** With several URLs the aliases are pairwise distinct. */
  lemma AliasesDistinct(baseAlias: Option<string>, count: nat, i: nat, j: nat)
    requires Truthy(baseAlias) && count > 1 && i != j
    ensures AliasFor(baseAlias, count, i) != AliasFor(baseAlias, count, j)
  {
    var prefix := baseAlias.value + "-";
    var a, b := prefix + NatToString(i + 1), prefix + NatToString(j + 1);
    if a == b {
      assert a[|prefix|..] == NatToString(i + 1);
      assert b[|prefix|..] == NatToString(j + 1);
      NatToStringInjective(i + 1, j + 1);
    }
  }

  /** What happened to entry i: blank after trimming is skipped, otherwise
      the trimmed URL is shortened and its envelope decides the list. */
  function CreateEntry(urls: seq<string>, i: nat, reply: Reply): (e: Entry<Data, UrlFailure>)
    requires i < |urls|
    ensures e.Skipped? <==> |Trim(urls[i])| == 0
    ensures e.Passed? <==> |Trim(urls[i])| > 0 && Accepted(reply)
    ensures e.Rejected? ==> e.problem.url == Trim(urls[i]) && e.problem.error != ""
  {
    var url := Trim(urls[i]);
    if |url| == 0 then Skipped
    else
      var result := Interpret(reply);
      if result.Succeeded? then Passed(result.data) else Rejected(UrlFailure(url, result.message))
  }

  /** The outcomes of the first n entries, in input order. */
  function CreateEntries(urls: seq<string>, respond: nat -> Reply, n: nat): (es: seq<Entry<Data, UrlFailure>>)
    requires n <= |urls|
    ensures |es| == n
  {
    if n == 0 then [] else CreateEntries(urls, respond, n - 1) + [CreateEntry(urls, n - 1, respond(n - 1))]
  }

  /** Position i of the outcomes holds entry i's outcome. */
  lemma {:induction false} CreateEntriesAt(urls: seq<string>, respond: nat -> Reply, n: nat, i: nat)
    requires i < n <= |urls|
    ensures CreateEntries(urls, respond, n)[i] == CreateEntry(urls, i, respond(i))
  {
    if i < n - 1 {
      CreateEntriesAt(urls, respond, n - 1, i);
    }
  }

  /** The (url, alias) pairs sent by the first n entries, in order. */
  function BulkRequests(urls: seq<string>, baseAlias: Option<string>, n: nat): (rs: seq<(string, Option<string>)>)
    requires n <= |urls|
    ensures |rs| <= n
  {
    if n == 0 then []
    else
      var url := Trim(urls[n - 1]);
      BulkRequests(urls, baseAlias, n - 1)
        + (if |url| == 0 then [] else [(url, AliasFor(baseAlias, |urls|, n - 1))])
  }

  /** The three lists the loop of `createBulkShortUrls` builds. */
  datatype Progress = Progress(results: seq<Data>, errors: seq<UrlFailure>, requests: seq<(string, Option<string>)>)

  /** The lists after the first n entries, one iteration at a time. */
  function CreateRun(urls: seq<string>, baseAlias: Option<string>, respond: nat -> Reply, n: nat): Progress
    requires n <= |urls|
  {
    if n == 0 then Progress([], [], [])
    else
      var p := CreateRun(urls, baseAlias, respond, n - 1);
      var url := Trim(urls[n - 1]);
      if |url| == 0 then p
      else
        var sent := p.requests + [(url, AliasFor(baseAlias, |urls|, n - 1))];
        var envelope := Interpret(respond(n - 1));
        if envelope.Succeeded? then Progress(p.results + [envelope.data], p.errors, sent)
        else Progress(p.results, p.errors + [UrlFailure(url, envelope.message)], sent)
  }

  /** The iteration builds exactly the lists the per-entry outcomes call for. */
  lemma {:induction false} CreateRunAgrees(urls: seq<string>, baseAlias: Option<string>, respond: nat -> Reply, n: nat)
    requires n <= |urls|
    ensures CreateRun(urls, baseAlias, respond, n).results == Successes(CreateEntries(urls, respond, n))
    ensures CreateRun(urls, baseAlias, respond, n).errors == Failures(CreateEntries(urls, respond, n))
    ensures CreateRun(urls, baseAlias, respond, n).requests == BulkRequests(urls, baseAlias, n)
  {
    if n > 0 {
      CreateRunAgrees(urls, baseAlias, respond, n - 1);
      Snoc(CreateEntries(urls, respond, n - 1), CreateEntry(urls, n - 1, respond(n - 1)));
    }
  }

  /** Every report of a bulk creation adds up: each entry is skipped,
      successful or failed, and the call succeeds exactly when every
      non-blank URL was accepted. */
  lemma BulkCreateAddsUp(urls: seq<string>, respond: nat -> Reply)
    ensures var es := CreateEntries(urls, respond, |urls|);
      var report := Summarize(es, |urls|);
      && report.successCount + report.errorCount + SkippedCount(es) == report.total
      && (report.success <==> forall i :: 0 <= i < |urls| ==> |Trim(urls[i])| == 0 || Accepted(respond(i)))
  {
    var es := CreateEntries(urls, respond, |urls|);
    PartitionCount(es);
    NoFailures(es);
    forall i | 0 <= i < |urls|
      ensures !es[i].Rejected? <==> |Trim(urls[i])| == 0 || Accepted(respond(i))
    {
      CreateEntriesAt(urls, respond, |urls|, i);
    }
  }

  // -------------------------------------------------------------- bulk delete spec

  /** `deleteLink(linkId)`: a falsy id throws, a 2xx answer yields the fixed
      notice, anything else a failure envelope. */
  function DeleteLink(linkId: string, reply: Reply): (r: Result<Envelope, string>)
    ensures linkId == "" <==> r == Failure(LinkIdRequired)
    ensures r.Success? ==> (r.value.Succeeded? <==> reply.Ok? && IsSuccessStatus(reply.status))
    ensures r.Success? && r.value.Succeeded? ==> r.value.data == Notice(DeletedMessage)
    ensures r.Success? && r.value.Failed? ==> r.value == Interpret(reply)
  {
    if linkId == "" then Failure(LinkIdRequired)
    else
      match reply
      case Ok(status, body) =>
        if IsSuccessStatus(status) then Success(Succeeded(Notice(DeletedMessage)))
        else Success(Failed(StringOr(body.message, StatusMessage(status)), None))
      case Threw(e) => Success(HandleError(e))
  }

  /** One entry of `failed` in `bulkDeleteLinks`. */
  datatype DeleteFailure = DeleteFailure(linkId: string, error: string)

  /** What happened to one id: deleted, or failed with the reason. */
  function DeleteEntry(linkId: string, reply: Reply): (e: Entry<string, DeleteFailure>)
    ensures !e.Skipped?
    ensures e.Passed? <==> |linkId| > 0 && Accepted(reply)
    ensures e.Passed? ==> e.item == linkId
    ensures e.Rejected? ==> e.problem.linkId == linkId
    ensures linkId == "" ==> e == Rejected(DeleteFailure(linkId, LinkIdRequired))
  {
    match DeleteLink(linkId, reply)
    case Success(result) =>
      if result.Succeeded? then Passed(linkId) else Rejected(DeleteFailure(linkId, result.message))
    case Failure(message) => Rejected(DeleteFailure(linkId, message))
  }

  /** The outcomes of the first n ids, in input order. */
  function DeleteEntries(linkIds: seq<string>, respond: nat -> Reply, n: nat): (es: seq<Entry<string, DeleteFailure>>)
    requires n <= |linkIds|
    ensures |es| == n
  {
    if n == 0 then [] else DeleteEntries(linkIds, respond, n - 1) + [DeleteEntry(linkIds[n - 1], respond(n - 1))]
  }

  /** Position i of the outcomes holds id i's outcome. */
  lemma {:induction false} DeleteEntriesAt(linkIds: seq<string>, respond: nat -> Reply, n: nat, i: nat)
    requires i < n <= |linkIds|
    ensures DeleteEntries(linkIds, respond, n)[i] == DeleteEntry(linkIds[i], respond(i))
  {
    if i < n - 1 {
      DeleteEntriesAt(linkIds, respond, n - 1, i);
    }
  }

  /** Bulk deletion skips nothing: the two counts add up to the total, and
      the call succeeds exactly when every id was non-empty and accepted. */
  lemma BulkDeleteAddsUp(linkIds: seq<string>, respond: nat -> Reply)
    ensures var es := DeleteEntries(linkIds, respond, |linkIds|);
      var report := Summarize(es, |linkIds|);
      && report.successCount + report.errorCount == report.total
      && (report.success <==> forall i :: 0 <= i < |linkIds| ==> |linkIds[i]| > 0 && Accepted(respond(i)))
  {
    var es := DeleteEntries(linkIds, respond, |linkIds|);
    forall i | 0 <= i < |linkIds|
      ensures !es[i].Skipped? && (!es[i].Rejected? <==> |linkIds[i]| > 0 && Accepted(respond(i)))
    {
      DeleteEntriesAt(linkIds, respond, |linkIds|, i);
    }
    NoneSkipped(es);
    NoFailures(es);
  }

  // ---------------------------------------------------------------------- client

  class ElnkProShortener {
    var apiKey: string
    var domainId: Option<string>
    var projectId: Option<string>
    var timeout: int
    var baseUrl: string

    /** What the constructor establishes and the setters keep: a key is set,
        and the timeout and base URL hold truthy values. */
    ghost predicate Valid()
      reads this
    {
      apiKey != "" && timeout != 0 && baseUrl != ""
    }

    /** `new ElnkProShortener(config)` once the key check has passed. */
    constructor(config: Config)
      requires Truthy(config.apiKey)
      ensures Valid()
      ensures apiKey == config.apiKey.value
      ensures GetConfig() == ConfigView(OrNull(config.domainId), OrNull(config.projectId),
                                        Query.NumberOr(config.timeout, DefaultTimeout),
                                        StringOr(config.baseUrl, DefaultBaseUrl))
    {
      apiKey := config.apiKey.value;
      domainId := OrNull(config.domainId);
      projectId := OrNull(config.projectId);
      timeout := Query.NumberOr(config.timeout, DefaultTimeout);
      baseUrl := StringOr(config.baseUrl, DefaultBaseUrl);
    }

    /** The constructor with its throw: a falsy key fails before anything
        is set up. */
    static method Create(config: Config) returns (r: Result<ElnkProShortener, string>)
      ensures !Truthy(config.apiKey) ==> r == Failure(ApiKeyRequired)
      ensures Truthy(config.apiKey) ==> r.Success? && fresh(r.value) && r.value.Valid()
      ensures Truthy(config.apiKey) ==> r.Success? && r.value.apiKey == config.apiKey.value
    {
      if !Truthy(config.apiKey) {
        return Failure(ApiKeyRequired);
      }
      var client := new ElnkProShortener(config);
      r := Success(client);
    }

    /** `getConfig()`: the current ids, timeout and base URL; the view has
        no field for the API key. */
    function GetConfig(): (view: ConfigView)
      reads this
      ensures view.domainId == domainId && view.projectId == projectId
      ensures view.timeout == timeout && view.baseUrl == baseUrl
      ensures Valid() ==> view.timeout != 0 && view.baseUrl != ""
    {
      ConfigView(domainId, projectId, timeout, baseUrl)
    }

    /** `setApiKey(apiKey)`: a falsy key throws and changes nothing. */
    method SetApiKey(key: Option<string>) returns (error: Option<string>)
      requires Valid()
      modifies this
      ensures Valid()
      ensures !Truthy(key) ==> error == Some(ApiKeyRequired) && apiKey == old(apiKey)
      ensures Truthy(key) ==> error == None && apiKey == key.value
      ensures GetConfig() == old(GetConfig())
    {
      if !Truthy(key) {
        return Some(ApiKeyRequired);
      }
      apiKey := key.value;
      error := None;
    }

    /** `setDomainId(domainId)`: stored as given, even when falsy. */
    method SetDomainId(d: Option<string>)
      requires Valid()
      modifies this
      ensures Valid()
      ensures GetConfig() == old(GetConfig()).(domainId := d)
      ensures apiKey == old(apiKey)
    {
      domainId := d;
    }

    /** `setProjectId(projectId)`: stored as given, even when falsy. */
    method SetProjectId(p: Option<string>)
      requires Valid()
      modifies this
      ensures Valid()
      ensures GetConfig() == old(GetConfig()).(projectId := p)
      ensures apiKey == old(apiKey)
    {
      projectId := p;
    }

    /** `createShortUrl(originalUrl, customAlias)`: a falsy URL throws before
        any request; otherwise the body built from the current configuration
        is posted and the reply decides the envelope. */
    method CreateShortUrl(originalUrl: string, customAlias: Option<string>, reply: Reply)
      returns (r: Result<Envelope, string>, sent: Option<seq<Field>>)
      ensures originalUrl == "" ==> r == Failure(UrlRequired) && sent == None
      ensures originalUrl != "" ==> r == Success(Interpret(reply))
      ensures originalUrl != "" ==> sent == Some(CreateBody(originalUrl, customAlias, domainId, projectId))
    {
      if originalUrl == "" {
        return Failure(UrlRequired), None;
      }
      var data := BuildCreateBody(originalUrl, customAlias, domainId, projectId);
      sent := Some(data);
      r := Success(Interpret(reply));
    }

    /** `createShortUrlWithRetry(originalUrl, customAlias, options)`.
        `calls` counts the attempts, `waits` lists the delays slept between
        them. No attempt runs when `maxRetries <= 0`; otherwise the loop runs
        until the first attempt that ends retries or until `maxRetries`
        attempts, and returns that last attempt's envelope. */
    method CreateShortUrlWithRetry(originalUrl: string, customAlias: Option<string>,
                                   options: RetryOptions, respond: nat -> Reply)
      returns (r: Envelope, calls: nat, waits: seq<int>)
      ensures MaxRetries(options) <= 0 ==> calls == 0 && r == Failed(GiveUpMessage, None)
      ensures MaxRetries(options) > 0 ==> 1 <= calls <= MaxRetries(options)
      ensures MaxRetries(options) > 0 ==> r == AttemptEnvelope(originalUrl, respond(calls))
      ensures forall k :: 1 <= k < calls ==> !EndsRetries(AttemptEnvelope(originalUrl, respond(k)))
      ensures 0 < calls < MaxRetries(options) ==> EndsRetries(AttemptEnvelope(originalUrl, respond(calls)))
      ensures |waits| == if calls == 0 then 0 else calls - 1
      ensures forall k :: 0 <= k < |waits| ==> waits[k] == RetryDelay(options) * (k + 1)
    {
      var maxRetries := MaxRetries(options);
      var retryDelay := RetryDelay(options);
      var lastError: Option<Envelope> := None;
      calls, waits := 0, [];
      var attempt := 1;
      while attempt <= maxRetries
        invariant 1 <= attempt && calls == attempt - 1
        invariant maxRetries <= 0 ==> attempt == 1
        invariant maxRetries > 0 ==> attempt <= maxRetries + 1
        invariant lastError.None? <==> calls == 0
        invariant lastError.Some? ==> lastError.value == AttemptEnvelope(originalUrl, respond(calls))
        invariant forall k :: 1 <= k <= calls ==> !EndsRetries(AttemptEnvelope(originalUrl, respond(k)))
        invariant |waits| == if calls == 0 then 0 else if calls < maxRetries then calls else calls - 1
        invariant forall k :: 0 <= k < |waits| ==> waits[k] == retryDelay * (k + 1)
      {
        var result, _ := CreateShortUrl(originalUrl, customAlias, respond(attempt));
        calls := attempt;
        match result {
          case Success(envelope) =>
            if envelope.Succeeded? {
              return envelope, calls, waits;
            }
            lastError := Some(envelope);
            if envelope.statusCode.Some? && envelope.statusCode.value != 0 && envelope.statusCode.value < 500 {
              break;
            }
          case Failure(message) =>
            lastError := Some(HandleError(SetupError(Some(message))));
        }
        if attempt < maxRetries {
          waits := waits + [retryDelay * attempt];
        }
        attempt := attempt + 1;
      }
      r := if lastError.Some? then lastError.value else Failed(GiveUpMessage, None);
    }

    /** `createBulkShortUrls(urls, baseAlias)`. `urls` is `None` when it is not
        an array. `requests` lists the (url, alias) pairs sent, in order. */
    method CreateBulkShortUrls(urls: Option<seq<string>>, baseAlias: Option<string>, respond: nat -> Reply)
      returns (r: Result<Report<Data, UrlFailure>, string>, requests: seq<(string, Option<string>)>)
      ensures urls.None? || |urls.value| == 0 ==> r == Failure(UrlsRequired) && requests == []
      ensures urls.Some? && |urls.value| > 0 ==>
        r == Success(Summarize(CreateEntries(urls.value, respond, |urls.value|), |urls.value|))
      ensures urls.Some? && |urls.value| > 0 ==> requests == BulkRequests(urls.value, baseAlias, |urls.value|)
    {
      if urls.None? || |urls.value| == 0 {
        return Failure(UrlsRequired), [];
      }
      var list := urls.value;
      var results, errors;
      results, errors, requests := CreateEach(list, baseAlias, respond);
      CreateRunAgrees(list, baseAlias, respond, |list|);
      r := Success(Report(|errors| == 0, results, errors, |list|, |results|, |errors|));
    }

    /** The loop of `createBulkShortUrls`: one request per non-blank URL, in
        input order, its envelope deciding which list grows. */
    method CreateEach(list: seq<string>, baseAlias: Option<string>, respond: nat -> Reply)
      returns (results: seq<Data>, errors: seq<UrlFailure>, requests: seq<(string, Option<string>)>)
      ensures Progress(results, errors, requests) == CreateRun(list, baseAlias, respond, |list|)
    {
      results, errors, requests := [], [], [];
      for i := 0 to |list|
        invariant Progress(results, errors, requests) == CreateRun(list, baseAlias, respond, i)
      {
        var url := Trim(list[i]);
        if |url| == 0 {
          continue;
        }
        var customAlias: Option<string> := None;
        if Truthy(baseAlias) {
          customAlias := Some(if |list| > 1 then baseAlias.value + "-" + NatToString(i + 1) else baseAlias.value);
        }
        assert customAlias == AliasFor(baseAlias, |list|, i);
        requests := requests + [(url, customAlias)];
        // A trimmed, non-empty URL never makes createShortUrl throw.
        var result, _ := CreateShortUrl(url, customAlias, respond(i));
        var envelope := result.value;
        if envelope.Succeeded? {
          results := results + [envelope.data];
        } else {
          errors := errors + [UrlFailure(url, envelope.message)];
        }
      }
    }

    /** `bulkDeleteLinks(linkIds)`. `linkIds` is `None` when it is not an
        array; an id is "" when it is falsy. */
    method BulkDeleteLinks(linkIds: Option<seq<string>>, respond: nat -> Reply)
      returns (r: Result<Report<string, DeleteFailure>, string>)
      ensures linkIds.None? || |linkIds.value| == 0 ==> r == Failure(LinkIdsRequired)
      ensures linkIds.Some? && |linkIds.value| > 0 ==>
        r == Success(Summarize(DeleteEntries(linkIds.value, respond, |linkIds.value|), |linkIds.value|))
    {
      if linkIds.None? || |linkIds.value| == 0 {
        return Failure(LinkIdsRequired);
      }
      var ids := linkIds.value;
      var results: seq<string> := [];
      var errors: seq<DeleteFailure> := [];
      for i := 0 to |ids|
        invariant results == Successes(DeleteEntries(ids, respond, i))
        invariant errors == Failures(DeleteEntries(ids, respond, i))
      {
        var linkId := ids[i];
        Snoc(DeleteEntries(ids, respond, i), DeleteEntry(linkId, respond(i)));
        match DeleteLink(linkId, respond(i)) {
          case Success(result) =>
            if result.Succeeded? {
              results := results + [linkId];
            } else {
              errors := errors + [DeleteFailure(linkId, result.message)];
            }
          case Failure(message) =>
            errors := errors + [DeleteFailure(linkId, message)];
        }
      }
      r := Success(Report(|errors| == 0, results, errors, |ids|, |results|, |errors|));
    }
  }
}
