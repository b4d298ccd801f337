/**
 * The node-failover gateway to the search cluster (repository/es_repository_impl.rs).
 *
 * The network is an oracle: a request is a function from the node it is sent
 * to onto what the transport reports (a response with a status and a body, or
 * a transport error). The random shuffle is an arbitrary permutation of the
 * configured clients, chosen by the caller.
 */
module EsRepository {
  import opened Wrappers
  import opened Json
  import UrlEncoding

  /** The connection settings of one cluster. */
  datatype ElasticServerConfig = ElasticServerConfig(
    elasticHost: seq<string>,
    elasticId: Option<string>,
    elasticPw: Option<string>)

  /** A client bound to a single node, known by its URL. */
  datatype EsClient = EsClient(url: string)

  /** A node's answer: its HTTP status, its body as JSON (None if it is not JSON) and as text. */
  datatype Response = Response(status: int, json: Option<Json>, text: string)

  /** A transport failure (connect, timeout) reported by one node. */
  datatype TransportError = TransportError(node: EsClient, reason: string)

  datatype EsError =
    | InvalidUrl(url: string)
    /** Every node failed; carries the last failure, or None when there was no node. */
    | AllNodesFailed(last: Option<TransportError>)
    | SearchFailed(errorBody: string)
    | BodyNotJson
    | IndexFailed(status: int)
    | DeleteFailed(status: int, docId: string)

  /** The URL of one node: credentials are embedded only when both id and password are set. */
  function ClientUrl(config: ElasticServerConfig, host: string): (url: string)
    ensures |url| >= 7 + |host| && url[..7] == "http://" && url[|url| - |host|..] == host
  {
    if config.elasticId.Some? && config.elasticPw.Some? then
      "http://" + config.elasticId.value + ":" + UrlEncoding.Encode(config.elasticPw.value) + "@" + host
    else
      "http://" + host
  }

  /**
   * Every URL is "http://" followed, at its end, by the host; when
   * credentials are embedded the id, a ':', the percent-encoded password and
   * an '@' stand between them, and otherwise nothing does.
   */
  lemma ClientUrlShape(config: ElasticServerConfig, host: string)
    ensures var url := ClientUrl(config, host);
      && |url| >= 7 + |host| && url[..7] == "http://" && url[|url| - |host|..] == host
      && (config.elasticId.Some? && config.elasticPw.Some? ==>
            url[7..7 + |config.elasticId.value|] == config.elasticId.value
            && url[7 + |config.elasticId.value|] == ':' && url[|url| - |host| - 1] == '@'
            && 8 + |config.elasticId.value| <= |url| - |host| - 1
            && url[8 + |config.elasticId.value|..|url| - |host| - 1] == UrlEncoding.Encode(config.elasticPw.value))
      && (config.elasticId.None? || config.elasticPw.None? ==> |url| == 7 + |host|)
  {
    var url := ClientUrl(config, host);
    if config.elasticId.Some? && config.elasticPw.Some? {
      var id, enc := config.elasticId.value, UrlEncoding.Encode(config.elasticPw.value);
      assert url == "http://" + id + ":" + enc + "@" + host;
      assert url[..7] == "http://";
      assert url[7..7 + |id|] == id;
      assert url[8 + |id|..|url| - |host| - 1] == enc;
      assert url[|url| - |host|..] == host;
    } else {
      assert url == "http://" + host;
      assert url[..7] == "http://";
      assert url[|url| - |host|..] == host;
    }
  }

  /** A password cannot break the URL: its encoded form has no ':', '@' or '/' and decodes back. */
  lemma ClientUrlPasswordSafe(config: ElasticServerConfig, host: string)
    requires config.elasticId.Some? && config.elasticPw.Some?
    ensures var enc := UrlEncoding.Encode(config.elasticPw.value);
      && UrlEncoding.DecodeBytes(enc) == Some(UrlEncoding.Utf8(config.elasticPw.value))
      && (forall k :: 0 <= k < |enc| ==> enc[k] != ':' && enc[k] != '@' && enc[k] != '/')
  {
    UrlEncoding.EncodeRoundTrip(config.elasticPw.value);
  }

  /** 2xx. */
  predicate IsSuccess(status: int) {
    200 <= status < 300
  }

  /**
   * The reference meaning of `execute_on_any_node`: try the nodes in the given
   * order, return the first response, remember the last transport error.
   */
  function AnyNode(order: seq<EsClient>, send: EsClient -> Result<Response, TransportError>,
                   last: Option<TransportError>): (r: Result<Response, EsError>)
    ensures order == [] ==> r == Err(AllNodesFailed(last))
    ensures r.Err? ==> r.error.AllNodesFailed?
    decreases |order|
  {
    if order == [] then Err(AllNodesFailed(last))
    else match send(order[0])
      case Ok(resp) => Ok(resp)
      case Err(e) => AnyNode(order[1..], send, Some(e))
  }

  /** How many nodes the gateway sends the request to: up to and including the first that answers. */
  function Attempts(order: seq<EsClient>, send: EsClient -> Result<Response, TransportError>): (n: nat)
    ensures n <= |order|
    decreases |order|
  {
    if order == [] then 0
    else if send(order[0]).Ok? then 1
    else 1 + Attempts(order[1..], send)
  }

  /**
   * The gateway stops at the first node that answers: every node tried
   * before the last one failed, and the last one answered unless every node
   * was tried.
   */
  lemma {:induction false} AttemptsMeaning(order: seq<EsClient>, send: EsClient -> Result<Response, TransportError>)
    ensures var n := Attempts(order, send);
      && (forall j :: 0 <= j < n - 1 ==> send(order[j]).Err?)
      && (n < |order| ==> n > 0 && send(order[n - 1]).Ok?)
    decreases |order|
  {
    if order != [] && send(order[0]).Err? {
      AttemptsMeaning(order[1..], send);
      assert forall j :: 1 <= j < |order| ==> order[1..][j - 1] == order[j];
    }
  }

  /** The first node, in try order, that answers decides the result. */
  lemma {:induction false} AnyNodeFirstSuccess(order: seq<EsClient>, send: EsClient -> Result<Response, TransportError>,
                                               last: Option<TransportError>, k: nat)
    requires k < |order| && send(order[k]).Ok?
    requires forall j :: 0 <= j < k ==> send(order[j]).Err?
    ensures AnyNode(order, send, last) == Ok(send(order[k]).value)
    ensures Attempts(order, send) == k + 1
    decreases k
  {
    if k > 0 {
      AnyNodeFirstSuccess(order[1..], send, Some(send(order[0]).error), k - 1);
    }
  }

  /** When every node fails, the error carries the failure of the last node tried. */
  lemma {:induction false} AnyNodeAllFail(order: seq<EsClient>, send: EsClient -> Result<Response, TransportError>,
                                          last: Option<TransportError>)
    requires forall j :: 0 <= j < |order| ==> send(order[j]).Err?
    ensures order == [] ==> AnyNode(order, send, last) == Err(AllNodesFailed(last))
    ensures order != [] ==> AnyNode(order, send, last) == Err(AllNodesFailed(Some(send(order[|order| - 1]).error)))
    ensures Attempts(order, send) == |order|
    decreases |order|
  {
    if order != [] {
      AnyNodeAllFail(order[1..], send, Some(send(order[0]).error));
    }
  }

  /** The gateway succeeds exactly when some node answers. */
  lemma {:induction false} AnyNodeOkIff(order: seq<EsClient>, send: EsClient -> Result<Response, TransportError>,
                                        last: Option<TransportError>)
    ensures AnyNode(order, send, last).Ok? <==> exists j :: 0 <= j < |order| && send(order[j]).Ok?
    ensures AnyNode(order, send, last).Err? ==> AnyNode(order, send, last).error.AllNodesFailed?
    decreases |order|
  {
    if order != [] {
      AnyNodeOkIff(order[1..], send, if send(order[0]).Err? then Some(send(order[0]).error) else last);
      if exists j :: 0 <= j < |order| && send(order[j]).Ok? {
        var j :| 0 <= j < |order| && send(order[j]).Ok?;
        if j > 0 { assert send(order[1..][j - 1]).Ok?; }
      } else {
        assert forall j :: 0 <= j < |order| - 1 ==> send(order[1..][j]) == send(order[j + 1]);
      }
    }
  }

  /** `get_search_query` after the gateway: a 2xx body is the result, any other status ends the call. */
  function SearchOutcome(r: Result<Response, EsError>): (out: Result<Json, EsError>)
    ensures r.Ok? && !IsSuccess(r.value.status) ==> out == Err(SearchFailed(r.value.text))
    ensures out.Ok? <==> r.Ok? && IsSuccess(r.value.status) && r.value.json.Some?
    ensures out.Ok? ==> out.value == r.value.json.value
    ensures r.Err? ==> out == Err(r.error)
  {
    match r
    case Err(e) => Err(e)
    case Ok(resp) =>
      if IsSuccess(resp.status) then
        match resp.json
        case Some(body) => Ok(body)
        case None => Err(BodyNotJson)
      else Err(SearchFailed(resp.text))
  }

  /** `post_query` after the gateway. */
  function IndexOutcome(r: Result<Response, EsError>): (out: Result<(), EsError>)
    ensures out.Ok? <==> r.Ok? && IsSuccess(r.value.status)
    ensures r.Ok? && !IsSuccess(r.value.status) ==> out == Err(IndexFailed(r.value.status))
  {
    match r
    case Err(e) => Err(e)
    case Ok(resp) => if IsSuccess(resp.status) then Ok(()) else Err(IndexFailed(resp.status))
  }

  /** `delete_query` after the gateway. */
  function DeleteOutcome(r: Result<Response, EsError>, docId: string): (out: Result<(), EsError>)
    ensures out.Ok? <==> r.Ok? && IsSuccess(r.value.status)
    ensures r.Ok? && !IsSuccess(r.value.status) ==> out == Err(DeleteFailed(r.value.status, docId))
  {
    match r
    case Err(e) => Err(e)
    case Ok(resp) => if IsSuccess(resp.status) then Ok(()) else Err(DeleteFailed(resp.status, docId))
  }

  /**
   * Failover is only for transport errors: when the first node tried answers
   * with a non-2xx status, the call fails whatever the other nodes would say.
   */
  lemma StatusFailureEndsCall(order: seq<EsClient>, send: EsClient -> Result<Response, TransportError>, docId: string)
    requires |order| > 0 && send(order[0]).Ok? && !IsSuccess(send(order[0]).value.status)
    ensures Attempts(order, send) == 1
    ensures SearchOutcome(AnyNode(order, send, None)) == Err(SearchFailed(send(order[0]).value.text))
    ensures IndexOutcome(AnyNode(order, send, None)).Err?
    ensures DeleteOutcome(AnyNode(order, send, None), docId).Err?
  {
    AnyNodeFirstSuccess(order, send, None, 0);
  }

  predicate IsPermutation(order: seq<EsClient>, clients: seq<EsClient>) {
    multiset(order) == multiset(clients)
  }

  /**
   * `new`'s loop: one client per configured host, in host order. `parses`
   * says whether `Url::parse` and the transport builder accept a URL.
   */
  method BuildClients(config: ElasticServerConfig, parses: string -> bool)
    returns (r: Result<seq<EsClient>, EsError>)
    ensures r.Ok? <==> forall i :: 0 <= i < |config.elasticHost| ==> parses(ClientUrl(config, config.elasticHost[i]))
    ensures r.Ok? ==> |r.value| == |config.elasticHost|
    ensures r.Ok? ==> forall i :: 0 <= i < |r.value| ==> r.value[i].url == ClientUrl(config, config.elasticHost[i])
    ensures r.Err? ==> exists i :: (0 <= i < |config.elasticHost|
      && r.error == InvalidUrl(ClientUrl(config, config.elasticHost[i]))
      && !parses(ClientUrl(config, config.elasticHost[i]))
      && forall j :: 0 <= j < i ==> parses(ClientUrl(config, config.elasticHost[j])))
  {
    var esClients: seq<EsClient> := [];
    var i := 0;
    while i < |config.elasticHost|
      invariant 0 <= i <= |config.elasticHost|
      invariant |esClients| == i
      invariant forall j :: 0 <= j < i ==> esClients[j].url == ClientUrl(config, config.elasticHost[j])
      invariant forall j :: 0 <= j < i ==> parses(ClientUrl(config, config.elasticHost[j]))
    {
      var url := ClientUrl(config, config.elasticHost[i]);
      if !parses(url) {
        return Err(InvalidUrl(url));
      }
      esClients := esClients + [EsClient(url)];
      i := i + 1;
    }
    return Ok(esClients);
  }

  /** The node at position `i` of the try order, then the nodes after it. */
  lemma AnyNodeStep(order: seq<EsClient>, i: nat, send: EsClient -> Result<Response, TransportError>,
                    last: Option<TransportError>)
    requires i < |order|
    ensures send(order[i]).Ok? ==>
      AnyNode(order[i..], send, last) == Ok(send(order[i]).value) && Attempts(order[i..], send) == 1
    ensures send(order[i]).Err? ==>
      && AnyNode(order[i..], send, last) == AnyNode(order[i + 1..], send, Some(send(order[i]).error))
      && Attempts(order[i..], send) == 1 + Attempts(order[i + 1..], send)
  {
    assert order[i..][0] == order[i] && order[i..][1..] == order[i + 1..];
  }

  /** The nodes tried so far are drawn from the try order without repetition. */
  lemma PrefixSubMultiset(order: seq<EsClient>, k: nat)
    requires k <= |order|
    ensures multiset(order[..k]) <= multiset(order)
  {
    assert order == order[..k] + order[k..];
  }

  class EsRepositoryImpl {
    const esClients: seq<EsClient>

    constructor (clients: seq<EsClient>)
      ensures esClients == clients
    {
      esClients := clients;
    }

    /** `EsRepositoryImpl::new`. */
    static method New(config: ElasticServerConfig, parses: string -> bool)
      returns (r: Result<EsRepositoryImpl, EsError>)
      ensures r.Ok? ==> fresh(r.value) && |r.value.esClients| == |config.elasticHost|
      ensures r.Ok? ==> forall i :: 0 <= i < |config.elasticHost| ==>
        r.value.esClients[i].url == ClientUrl(config, config.elasticHost[i])
      ensures r.Err? <==> exists i :: 0 <= i < |config.elasticHost| && !parses(ClientUrl(config, config.elasticHost[i]))
    {
      var clients := BuildClients(config, parses);
      match clients
      case Err(e) => return Err(e);
      case Ok(cs) =>
        var repo := new EsRepositoryImpl(cs);
        return Ok(repo);
    }

    /**
     * `execute_on_any_node`: send the request to each client once, in the
     * shuffled order `order`, and stop at the first that answers.
     * `tried` lists the clients the request was sent to.
     */
    method ExecuteOnAnyNode(send: EsClient -> Result<Response, TransportError>, order: seq<EsClient>)
      returns (r: Result<Response, EsError>, ghost tried: seq<EsClient>)
      requires IsPermutation(order, esClients)
      ensures r == AnyNode(order, send, None)
      ensures tried == order[..Attempts(order, send)]
      ensures multiset(tried) <= multiset(esClients)
      ensures r.Ok? ==> |tried| > 0 && send(tried[|tried| - 1]) == Ok(r.value)
    {
      var lastError: Option<TransportError> := None;
      tried := [];
      var i := 0;
      while i < |order|
        invariant 0 <= i <= |order|
        invariant i > 0 ==> send(order[i - 1]).Err? && lastError == Some(send(order[i - 1]).error)
        invariant i == 0 ==> lastError == None
        invariant AnyNode(order[i..], send, lastError) == AnyNode(order, send, None)
        invariant Attempts(order, send) == i + Attempts(order[i..], send)
        invariant tried == order[..i]
      {
        var outcome := send(order[i]);
        AnyNodeStep(order, i, send, lastError);
        tried := tried + [order[i]];
        assert tried == order[..i + 1];
        if outcome.Ok? {
          PrefixSubMultiset(order, i + 1);
          return Ok(outcome.value), tried;
        }
        lastError := Some(outcome.error);
        i := i + 1;
      }
      assert order[..|order|] == order;
      return Err(AllNodesFailed(lastError)), tried;
    }

    /** `get_search_query`. */
    method GetSearchQuery(send: EsClient -> Result<Response, TransportError>, order: seq<EsClient>)
      returns (r: Result<Json, EsError>)
      requires IsPermutation(order, esClients)
      ensures r == SearchOutcome(AnyNode(order, send, None))
    {
      var response, _ := ExecuteOnAnyNode(send, order);
      r := SearchOutcome(response);
    }

    /** `post_query` (and `post_query_struct`, whose serialisation cannot fail for the records here). */
    method PostQuery(send: EsClient -> Result<Response, TransportError>, order: seq<EsClient>)
      returns (r: Result<(), EsError>)
      requires IsPermutation(order, esClients)
      ensures r == IndexOutcome(AnyNode(order, send, None))
    {
      var response, _ := ExecuteOnAnyNode(send, order);
      r := IndexOutcome(response);
    }

    /** `delete_query`. */
    method DeleteQuery(send: EsClient -> Result<Response, TransportError>, order: seq<EsClient>, docId: string)
      returns (r: Result<(), EsError>)
      requires IsPermutation(order, esClients)
      ensures r == DeleteOutcome(AnyNode(order, send, None), docId)
    {
      var response, _ := ExecuteOnAnyNode(send, order);
      r := DeleteOutcome(response, docId);
    }
  }
}
