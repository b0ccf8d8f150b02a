/** The router of outgoing requests. Its four maps are, at every moment, the two kinds of open
    queries and of outstanding requests of `Routing`; each handler is one event there. */
module Router {
  import opened Bytes
  import opened Keys
  import opened Domain
  import opened Routing

  /** Any element of the set, and none only if there is none. */
  method ChooseRandom(providers: set<PeerId>) returns (peer: Option<PeerId>)
    ensures IsChoice(peer, providers)
  {
    if providers == {} {
      return None;
    }
    var p :| p in providers;
    return Some(p);
  }

  ghost predicate HoldsQuery(queries: map<QueryId, ProvidersRequest>, kind: Kind, routes: Routes, q: QueryId) {
    && (q in queries <==> q in routes.queries && KindOf(routes.queries[q].request) == kind)
    && (q in queries ==> queries[q] == routes.queries[q])
  }

  /** The map holds the open queries of a kind. */
  ghost predicate HoldsQueries(queries: map<QueryId, ProvidersRequest>, kind: Kind, routes: Routes) {
    forall q :: HoldsQuery(queries, kind, routes, q)
  }

  ghost predicate HoldsRequest(requests: map<RequestId, Channel>, kind: Kind, routes: Routes, id: RequestId) {
    && (id in requests <==> Outbound(kind, id) in routes.requests)
    && (id in requests ==> requests[id] == routes.requests[Outbound(kind, id)])
  }

  /** The map holds the outstanding requests of a kind. */
  ghost predicate HoldsRequests(requests: map<RequestId, Channel>, kind: Kind, routes: Routes) {
    forall id :: HoldsRequest(requests, kind, routes, id)
  }

  /** The maps of one kind when a query has begun. */
  lemma AfterAsk(
    queries: map<QueryId, ProvidersRequest>, requests: map<RequestId, Channel>, kind: Kind,
    routes: Routes, request: Request, serialises: bool, result: Channel, q: QueryId)
    requires HoldsQueries(queries, kind, routes) && HoldsRequests(requests, kind, routes) && q !in routes.queries
    ensures
      var after := Asked(routes, request, serialises, result, q);
      && HoldsQueries(if serialises && KindOf(request) == kind
                      then queries[q := ProvidersRequest({}, request, result)]
                      else queries,
                      kind, after)
      && HoldsRequests(requests, kind, after)
  {
    var after := Asked(routes, request, serialises, result, q);
    var data := ProvidersRequest({}, request, result);
    var more := if serialises && KindOf(request) == kind then queries[q := data] else queries;
    forall x ensures HoldsQuery(more, kind, after, x) { assert HoldsQuery(queries, kind, routes, x); }
    forall x ensures HoldsRequest(requests, kind, after, x) { assert HoldsRequest(requests, kind, routes, x); }
  }

  /** The maps of one kind when a query has ended. */
  lemma AfterConclude(
    queries: map<QueryId, ProvidersRequest>, requests: map<RequestId, Channel>, kind: Kind,
    routes: Routes, q: QueryId, choice: Option<PeerId>, id: RequestId)
    requires HoldsQueries(queries, kind, routes) && HoldsRequests(requests, kind, routes)
    ensures
      var after := Concluded(routes, q, choice, id);
      && HoldsQueries(queries - {q}, kind, after)
      && HoldsRequests(if q in queries && choice.Some? then requests[id := queries[q].result] else requests,
                       kind, after)
  {
    var after := Concluded(routes, q, choice, id);
    var more := if q in queries && choice.Some? then requests[id := queries[q].result] else requests;
    assert HoldsQuery(queries, kind, routes, q);
    forall x ensures HoldsQuery(queries - {q}, kind, after, x) { assert HoldsQuery(queries, kind, routes, x); }
    forall x ensures HoldsRequest(more, kind, after, x) { assert HoldsRequest(requests, kind, routes, x); }
  }

  /** The maps of one kind when providers have been found. */
  lemma AfterFound(
    queries: map<QueryId, ProvidersRequest>, requests: map<RequestId, Channel>, kind: Kind,
    routes: Routes, q: QueryId, providers: set<PeerId>)
    requires HoldsQueries(queries, kind, routes) && HoldsRequests(requests, kind, routes)
    ensures
      var after := FoundMore(routes, q, providers);
      && HoldsQueries(
           if q in queries
           then queries[q := queries[q].(foundProviders := queries[q].foundProviders + providers)]
           else queries,
           kind, after)
      && HoldsRequests(requests, kind, after)
  {
    var after := FoundMore(routes, q, providers);
    assert HoldsQuery(queries, kind, routes, q);
    var more := if q in queries
      then queries[q := queries[q].(foundProviders := queries[q].foundProviders + providers)] else queries;
    forall x ensures HoldsQuery(more, kind, after, x) { assert HoldsQuery(queries, kind, routes, x); }
    forall x ensures HoldsRequest(requests, kind, after, x) { assert HoldsRequest(requests, kind, routes, x); }
  }

  /** The maps of one kind when a reply has come. */
  lemma AfterReply(
    queries: map<QueryId, ProvidersRequest>, requests: map<RequestId, Channel>, kind: Kind,
    routes: Routes, o: Outbound, answer: Answer)
    requires HoldsQueries(queries, kind, routes) && HoldsRequests(requests, kind, routes)
    ensures
      var after := Replied(routes, o, answer);
      && HoldsQueries(queries, kind, after)
      && HoldsRequests(if o.kind == kind then requests - {o.id} else requests, kind, after)
  {
    var after := Replied(routes, o, answer);
    var fewer := if o.kind == kind then requests - {o.id} else requests;
    forall x ensures HoldsQuery(queries, kind, after, x) { assert HoldsQuery(queries, kind, routes, x); }
    forall x ensures HoldsRequest(fewer, kind, after, x) { assert HoldsRequest(requests, kind, routes, x); }
  }

  class EventService {
    var metadataProvidersRequests: map<QueryId, ProvidersRequest>
    var fileChunkProvidersRequests: map<QueryId, ProvidersRequest>
    var metadataDownloadRequests: map<RequestId, Channel>
    var fileDownloadRequests: map<RequestId, Channel>
    ghost var routes: Routes

    /** The maps hold the queries and requests of their kind. */
    ghost predicate Represents()
      reads this
    {
      && HoldsQueries(metadataProvidersRequests, OfMetadata, routes)
      && HoldsQueries(fileChunkProvidersRequests, OfChunks, routes)
      && HoldsRequests(metadataDownloadRequests, OfMetadata, routes)
      && HoldsRequests(fileDownloadRequests, OfChunks, routes)
    }

    ghost predicate Valid()
      reads this
    {
      Represents() && Consistent(routes)
    }

    /** No query is one for metadata and for a chunk, so that looking into one map first is no
        matter. */
    lemma QueriesDisjoint()
      requires Valid()
      ensures metadataProvidersRequests.Keys !! fileChunkProvidersRequests.Keys
    {
      forall q | q in metadataProvidersRequests
        ensures q !in fileChunkProvidersRequests
      {
        assert HoldsQuery(metadataProvidersRequests, OfMetadata, routes, q);
        assert HoldsQuery(fileChunkProvidersRequests, OfChunks, routes, q);
      }
    }

    constructor ()
      ensures Valid() && routes == EMPTY
    {
      metadataProvidersRequests, fileChunkProvidersRequests := map[], map[];
      metadataDownloadRequests, fileDownloadRequests := map[], map[];
      routes := EMPTY;
    }

    /** The command for metadata starts a providers query. */
    method RequestMetadata(fileId: u64, result: Channel, queryId: QueryId)
      requires Valid() && Enabled(routes, Ask(MetadataRequest(fileId), true, result, queryId))
      modifies this
      ensures Valid() && routes == Step(old(routes), Ask(MetadataRequest(fileId), true, result, queryId))
    {
      var request := MetadataRequest(fileId);
      AskHolds(request, true, result, queryId);
      metadataProvidersRequests := metadataProvidersRequests[queryId := ProvidersRequest({}, request, result)];
      routes := Asked(routes, request, true, result, queryId);
    }

    /** The command for a chunk does so too, unless the request cannot be serialised. */
    method RequestFileChunk(fileId: u64, chunkId: nat, serialises: bool, result: Channel, queryId: QueryId)
      requires Valid() && Enabled(routes, Ask(ChunkRequest(fileId, chunkId), serialises, result, queryId))
      modifies this
      ensures Valid() && routes == Step(old(routes), Ask(ChunkRequest(fileId, chunkId), serialises, result, queryId))
    {
      var request := ChunkRequest(fileId, chunkId);
      AskHolds(request, serialises, result, queryId);
      routes := Asked(routes, request, serialises, result, queryId);
      if !serialises {
        return;
      }
      fileChunkProvidersRequests := fileChunkProvidersRequests[queryId := ProvidersRequest({}, request, result)];
    }

    lemma AskHolds(request: Request, serialises: bool, result: Channel, queryId: QueryId)
      requires Valid() && Enabled(routes, Ask(request, serialises, result, queryId))
      ensures
        var after := Asked(routes, request, serialises, result, queryId);
        var data := ProvidersRequest({}, request, result);
        && Consistent(after)
        && HoldsQueries(if serialises && KindOf(request) == OfMetadata
                        then metadataProvidersRequests[queryId := data] else metadataProvidersRequests,
                        OfMetadata, after)
        && HoldsQueries(if serialises && KindOf(request) == OfChunks
                        then fileChunkProvidersRequests[queryId := data] else fileChunkProvidersRequests,
                        OfChunks, after)
        && HoldsRequests(metadataDownloadRequests, OfMetadata, after)
        && HoldsRequests(fileDownloadRequests, OfChunks, after)
    {
      AskedOk(routes, request, serialises, result, queryId);
      assert QueryOk(routes, queryId);
      AfterAsk(metadataProvidersRequests, metadataDownloadRequests, OfMetadata, routes, request, serialises, result,
        queryId);
      AfterAsk(fileChunkProvidersRequests, fileDownloadRequests, OfChunks, routes, request, serialises, result,
        queryId);
    }

    /** A batch of providers of a query. */
    method FoundProviders(id: QueryId, providers: set<PeerId>)
      requires Valid()
      modifies this
      ensures Valid() && routes == Step(old(routes), Found(id, providers))
    {
      QueriesDisjoint();
      FoundOk(routes, id, providers);
      AfterFound(metadataProvidersRequests, metadataDownloadRequests, OfMetadata, routes, id, providers);
      AfterFound(fileChunkProvidersRequests, fileDownloadRequests, OfChunks, routes, id, providers);
      routes := FoundMore(routes, id, providers);
      if id in metadataProvidersRequests {
        var data := metadataProvidersRequests[id];
        metadataProvidersRequests :=
          metadataProvidersRequests[id := data.(foundProviders := data.foundProviders + providers)];
      } else if id in fileChunkProvidersRequests {
        var data := fileChunkProvidersRequests[id];
        fileChunkProvidersRequests :=
          fileChunkProvidersRequests[id := data.(foundProviders := data.foundProviders + providers)];
      }
    }

    /** The end of a query, be it exhausted or failed. `requestId` is the id the next request of its
        kind would get. */
    method AllPossibleProvidersFound(id: QueryId, requestId: RequestId) returns (peer: Option<PeerId>)
      requires Valid()
      requires id in routes.queries ==> Outbound(KindOf(routes.queries[id].request), requestId) !in routes.sent
      modifies this
      ensures Enabled(old(routes), Conclude(id, peer, requestId))
      ensures Valid() && routes == Step(old(routes), Conclude(id, peer, requestId))
    {
      QueriesDisjoint();
      assert HoldsQuery(metadataProvidersRequests, OfMetadata, routes, id);
      assert HoldsQuery(fileChunkProvidersRequests, OfChunks, routes, id);
      if id in metadataProvidersRequests {
        peer := EndMetadataQuery(id, requestId);
      } else if id in fileChunkProvidersRequests {
        peer := EndChunkQuery(id, requestId);
      } else {
        peer := None;
      }
      ConcludedOk(routes, id, peer, requestId);
      AfterConclude(old(metadataProvidersRequests), old(metadataDownloadRequests), OfMetadata, routes, id, peer,
        requestId);
      AfterConclude(old(fileChunkProvidersRequests), old(fileDownloadRequests), OfChunks, routes, id, peer, requestId);
      assert id !in metadataProvidersRequests ==> metadataProvidersRequests - {id} == metadataProvidersRequests;
      assert id !in fileChunkProvidersRequests ==> fileChunkProvidersRequests - {id} == fileChunkProvidersRequests;
      routes := Concluded(routes, id, peer, requestId);
    }

    method EndMetadataQuery(id: QueryId, requestId: RequestId) returns (peer: Option<PeerId>)
      requires id in metadataProvidersRequests
      modifies this`metadataProvidersRequests, this`metadataDownloadRequests
      ensures IsChoice(peer, old(metadataProvidersRequests)[id].foundProviders)
      ensures metadataProvidersRequests == old(metadataProvidersRequests) - {id}
      ensures metadataDownloadRequests ==
              if peer.Some?
              then old(metadataDownloadRequests)[requestId := old(metadataProvidersRequests)[id].result]
              else old(metadataDownloadRequests)
    {
      var data := metadataProvidersRequests[id];
      peer := ChooseRandom(data.foundProviders);
      if peer.Some? {
        metadataDownloadRequests := metadataDownloadRequests[requestId := data.result];
      }
      metadataProvidersRequests := metadataProvidersRequests - {id};
    }

    method EndChunkQuery(id: QueryId, requestId: RequestId) returns (peer: Option<PeerId>)
      requires id in fileChunkProvidersRequests
      modifies this`fileChunkProvidersRequests, this`fileDownloadRequests
      ensures IsChoice(peer, old(fileChunkProvidersRequests)[id].foundProviders)
      ensures fileChunkProvidersRequests == old(fileChunkProvidersRequests) - {id}
      ensures fileDownloadRequests ==
              if peer.Some?
              then old(fileDownloadRequests)[requestId := old(fileChunkProvidersRequests)[id].result]
              else old(fileDownloadRequests)
    {
      var data := fileChunkProvidersRequests[id];
      peer := ChooseRandom(data.foundProviders);
      if peer.Some? {
        fileDownloadRequests := fileDownloadRequests[requestId := data.result];
      }
      fileChunkProvidersRequests := fileChunkProvidersRequests - {id};
    }

    /** A reply to a metadata request; `decoded` is what its bytes decode to. Anything but metadata is
        passed on as nothing. */
    method MetadataResponse(requestId: RequestId, response: FileResponse, decoded: Option<FileMetadata>)
      requires Valid()
      modifies this
      ensures Valid()
      ensures routes == Step(old(routes), Reply(Outbound(OfMetadata, requestId),
                if response.Success? && decoded.Some? then GotMetadata(decoded.value) else Nothing))
    {
      var answer := if response.Success? && decoded.Some? then GotMetadata(decoded.value) else Nothing;
      ReplyHolds(Outbound(OfMetadata, requestId), answer);
      routes := Replied(routes, Outbound(OfMetadata, requestId), answer);
      if requestId in metadataDownloadRequests {
        metadataDownloadRequests := metadataDownloadRequests - {requestId};
      }
    }

    lemma ReplyHolds(o: Outbound, answer: Answer)
      requires Valid()
      ensures
        var after := Replied(routes, o, answer);
        && Consistent(after)
        && HoldsQueries(metadataProvidersRequests, OfMetadata, after)
        && HoldsQueries(fileChunkProvidersRequests, OfChunks, after)
        && HoldsRequests(if o.kind == OfMetadata && o.id in metadataDownloadRequests
                         then metadataDownloadRequests - {o.id} else metadataDownloadRequests, OfMetadata, after)
        && HoldsRequests(if o.kind == OfChunks && o.id in fileDownloadRequests
                         then fileDownloadRequests - {o.id} else fileDownloadRequests, OfChunks, after)
    {
      RepliedOk(routes, o, answer);
      AfterReply(metadataProvidersRequests, metadataDownloadRequests, OfMetadata, routes, o, answer);
      AfterReply(fileChunkProvidersRequests, fileDownloadRequests, OfChunks, routes, o, answer);
      assert o.id !in metadataDownloadRequests ==> metadataDownloadRequests - {o.id} == metadataDownloadRequests;
      assert o.id !in fileDownloadRequests ==> fileDownloadRequests - {o.id} == fileDownloadRequests;
    }

    /** A reply to a chunk request is passed on as it is. */
    method FileDownloadResponse(requestId: RequestId, response: FileResponse)
      requires Valid()
      modifies this
      ensures Valid() && routes == Step(old(routes), Reply(Outbound(OfChunks, requestId), GotReply(response)))
    {
      ReplyHolds(Outbound(OfChunks, requestId), GotReply(response));
      routes := Replied(routes, Outbound(OfChunks, requestId), GotReply(response));
      if requestId in fileDownloadRequests {
        fileDownloadRequests := fileDownloadRequests - {requestId};
      }
    }
  }
}
