/** Outgoing requests: from a providers query, through a request to one of the providers, to the
    answer on the channel of whoever asked. This module says what the router's maps mean and what
    holds over every sequence of commands and network events; `Router` is the router itself. */
module Routing {
  import opened Bytes
  import opened Keys
  import opened Domain

  type PeerId = nat
  type QueryId = nat
  type RequestId = nat
  type Channel = nat

  datatype Request = MetadataRequest(fileId: u64) | ChunkRequest(fileId: u64, chunkId: nat)

  /** What a channel is answered with: nothing, metadata, or a peer's reply for a chunk. */
  datatype Answer = Nothing | GotMetadata(m: FileMetadata) | GotReply(reply: FileResponse)

  datatype ProvidersRequest = ProvidersRequest(foundProviders: set<PeerId>, request: Request, result: Channel)

  /** A request sent to a peer on behalf of a query. */
  datatype Sent = Sent(peer: PeerId, request: Request, query: QueryId)

  datatype Kind = OfMetadata | OfChunks

  function KindOf(request: Request): Kind {
    if request.MetadataRequest? then OfMetadata else OfChunks
  }

  /** Requests of the two kinds are numbered separately. */
  datatype Outbound = Outbound(kind: Kind, id: RequestId)

  datatype Place = AtQuery(q: QueryId) | AtRequest(o: Outbound) | Completed

  /** The open queries and outstanding requests of both kinds, and the past: the requests sent, what
      was asked on which channel, the providers seen for each query, the answers given, and where each
      channel is now. */
  datatype Routes = Routes(
    queries: map<QueryId, ProvidersRequest>,
    requests: map<Outbound, Channel>,
    sent: map<Outbound, Sent>,
    issued: map<Channel, Request>,
    seen: map<QueryId, set<PeerId>>,
    answered: map<Channel, Answer>,
    place: map<Channel, Place>)

  const EMPTY := Routes(map[], map[], map[], map[], map[], map[], map[])

  // ----- the invariant -----

  ghost predicate QueryOk(r: Routes, q: QueryId) {
    q in r.queries ==>
      var data := r.queries[q];
      && q in r.seen && data.foundProviders == r.seen[q]
      && data.result in r.issued && data.request == r.issued[data.result]
      && data.result in r.place && r.place[data.result] == AtQuery(q)
  }

  ghost predicate RequestOk(r: Routes, o: Outbound) {
    o in r.requests ==>
      var result := r.requests[o];
      && o in r.sent && result in r.issued && r.sent[o].request == r.issued[result]
      && KindOf(r.issued[result]) == o.kind
      && result in r.place && r.place[result] == AtRequest(o)
  }

  ghost predicate SentOk(r: Routes, o: Outbound) {
    o in r.sent ==> r.sent[o].query in r.seen && r.sent[o].peer in r.seen[r.sent[o].query]
  }

  /** A channel is found at its place. */
  ghost predicate PlaceOk(r: Routes, c: Channel) {
    c in r.place ==>
      match r.place[c]
      case AtQuery(q) => q in r.queries && r.queries[q].result == c
      case AtRequest(o) => o in r.requests && r.requests[o] == c
      case Completed => c in r.answered
  }

  ghost predicate AnswerOk(r: Routes, c: Channel) {
    c in r.answered ==> c in r.place && r.place[c] == Completed
  }

  /** Conservation: every channel asked on is in exactly one place, waiting for providers, waiting for
      a peer, or answered; what waits there is what was asked; and whoever was contacted is one of the
      providers seen for the query. */
  ghost predicate Consistent(r: Routes) {
    && (forall q :: QueryOk(r, q))
    && (forall o :: RequestOk(r, o))
    && (forall o :: SentOk(r, o))
    && (forall c :: PlaceOk(r, c))
    && (forall c :: AnswerOk(r, c))
    && r.place.Keys == r.issued.Keys
  }

  // ----- commands and events -----

  datatype Event =
    | Ask(request: Request, serialises: bool, result: Channel, q: QueryId)
    | Found(q: QueryId, providers: set<PeerId>)
    | Conclude(q: QueryId, choice: Option<PeerId>, id: RequestId)
    | Reply(o: Outbound, answer: Answer)

  predicate IsChoice(choice: Option<PeerId>, providers: set<PeerId>) {
    if providers == {} then choice.None? else choice.Some? && choice.value in providers
  }

  /** Channels, queries and requests get fresh ids, and a provider is chosen if there is one. */
  ghost predicate Enabled(r: Routes, e: Event) {
    match e
    case Ask(_, _, result, q) => result !in r.issued && q !in r.seen
    case Found(_, _) => true
    case Conclude(q, choice, id) =>
      q in r.queries ==>
        IsChoice(choice, r.queries[q].foundProviders) && Outbound(KindOf(r.queries[q].request), id) !in r.sent
    case Reply(_, _) => true
  }

  function Asked(r: Routes, request: Request, serialises: bool, result: Channel, q: QueryId): Routes {
    var issued := r.(issued := r.issued[result := request]);
    if !serialises then issued.(answered := r.answered[result := Nothing], place := r.place[result := Completed])
    else
      issued.(queries := r.queries[q := ProvidersRequest({}, request, result)],
              seen := r.seen[q := {}],
              place := r.place[result := AtQuery(q)])
  }

  function FoundMore(r: Routes, q: QueryId, providers: set<PeerId>): Routes {
    if q !in r.queries then r
    else
      var data := r.queries[q];
      var more := data.foundProviders + providers;
      r.(queries := r.queries[q := data.(foundProviders := more)], seen := r.seen[q := more])
  }

  function Concluded(r: Routes, q: QueryId, choice: Option<PeerId>, id: RequestId): Routes {
    if q !in r.queries then r
    else
      var data := r.queries[q];
      var closed := r.(queries := r.queries - {q});
      match choice
      case None => closed.(answered := r.answered[data.result := Nothing], place := r.place[data.result := Completed])
      case Some(peer) =>
        var o := Outbound(KindOf(data.request), id);
        closed.(requests := r.requests[o := data.result],
                sent := r.sent[o := Sent(peer, data.request, q)],
                place := r.place[data.result := AtRequest(o)])
  }

  function Replied(r: Routes, o: Outbound, answer: Answer): Routes {
    if o !in r.requests then r
    else
      r.(requests := r.requests - {o},
         answered := r.answered[r.requests[o] := answer],
         place := r.place[r.requests[o] := Completed])
  }

  function Step(r: Routes, e: Event): Routes {
    match e
    case Ask(request, serialises, result, q) => Asked(r, request, serialises, result, q)
    case Found(q, providers) => FoundMore(r, q, providers)
    case Conclude(q, choice, id) => Concluded(r, q, choice, id)
    case Reply(o, answer) => Replied(r, o, answer)
  }

  // ----- preservation -----

  lemma AskedOk(r: Routes, request: Request, serialises: bool, result: Channel, q: QueryId)
    requires Consistent(r) && result !in r.issued && q !in r.seen
    ensures Consistent(Asked(r, request, serialises, result, q))
  {
    var t := Asked(r, request, serialises, result, q);
    assert QueryOk(r, q);
    forall p ensures QueryOk(t, p) { assert QueryOk(r, p); }
    forall o ensures RequestOk(t, o) { assert RequestOk(r, o); }
    forall o ensures SentOk(t, o) { assert SentOk(r, o); }
    forall c ensures PlaceOk(t, c) { assert PlaceOk(r, c); }
    forall c ensures AnswerOk(t, c) { assert AnswerOk(r, c); }
  }

  lemma FoundOk(r: Routes, q: QueryId, providers: set<PeerId>)
    requires Consistent(r)
    ensures Consistent(FoundMore(r, q, providers))
  {
    var t := FoundMore(r, q, providers);
    assert QueryOk(r, q);
    forall p ensures QueryOk(t, p) { assert QueryOk(r, p); }
    forall o ensures RequestOk(t, o) { assert RequestOk(r, o); }
    forall o ensures SentOk(t, o) { assert SentOk(r, o); }
    forall c ensures PlaceOk(t, c) { assert PlaceOk(r, c); }
    forall c ensures AnswerOk(t, c) { assert AnswerOk(r, c); }
  }

  lemma ConcludedOk(r: Routes, q: QueryId, choice: Option<PeerId>, id: RequestId)
    requires Consistent(r) && Enabled(r, Conclude(q, choice, id))
    ensures Consistent(Concluded(r, q, choice, id))
  {
    var t := Concluded(r, q, choice, id);
    assert QueryOk(r, q);
    if q in r.queries { assert RequestOk(r, Outbound(KindOf(r.queries[q].request), id)); }
    forall p ensures QueryOk(t, p) { assert QueryOk(r, p); }
    forall o ensures RequestOk(t, o) { assert RequestOk(r, o); }
    forall o ensures SentOk(t, o) { assert SentOk(r, o); }
    forall c ensures PlaceOk(t, c) { assert PlaceOk(r, c); }
    forall c ensures AnswerOk(t, c) { assert AnswerOk(r, c); }
  }

  lemma RepliedOk(r: Routes, o: Outbound, answer: Answer)
    requires Consistent(r)
    ensures Consistent(Replied(r, o, answer))
  {
    var t := Replied(r, o, answer);
    assert RequestOk(r, o);
    forall p ensures QueryOk(t, p) { assert QueryOk(r, p); }
    forall x ensures RequestOk(t, x) { assert RequestOk(r, x); }
    forall x ensures SentOk(t, x) { assert SentOk(r, x); }
    forall c ensures PlaceOk(t, c) { assert PlaceOk(r, c); }
    forall c ensures AnswerOk(t, c) { assert AnswerOk(r, c); }
  }

  lemma StepOk(r: Routes, e: Event)
    requires Consistent(r) && Enabled(r, e)
    ensures Consistent(Step(r, e))
  {
    match e
    case Ask(request, serialises, result, q) => AskedOk(r, request, serialises, result, q);
    case Found(q, providers) => FoundOk(r, q, providers);
    case Conclude(q, choice, id) => ConcludedOk(r, q, choice, id);
    case Reply(o, answer) => RepliedOk(r, o, answer);
  }

  // ----- whole runs -----

  ghost predicate Possible(r: Routes, es: seq<Event>)
    decreases |es|
  {
    es == [] || (Enabled(r, es[0]) && Possible(Step(r, es[0]), es[1..]))
  }

  function Run(r: Routes, es: seq<Event>): Routes
    decreases |es|
  {
    if es == [] then r else Run(Step(r, es[0]), es[1..])
  }

  /** What was asked stays asked, and an answer, once given, is final. */
  ghost predicate AnswersFinal(a: Routes, b: Routes) {
    && (forall c :: c in a.issued ==> c in b.issued && b.issued[c] == a.issued[c])
    && (forall c :: c in a.answered ==> c in b.answered && b.answered[c] == a.answered[c])
  }

  lemma StepAnswersFinal(r: Routes, e: Event)
    requires Consistent(r) && Enabled(r, e)
    ensures AnswersFinal(r, Step(r, e))
  {
    forall c | c in r.answered
      ensures c in Step(r, e).answered && Step(r, e).answered[c] == r.answered[c]
    {
      assert AnswerOk(r, c);
      match e
      case Conclude(q, _, _) => assert QueryOk(r, q);
      case Reply(o, _) => assert RequestOk(r, o);
      case _ =>
    }
  }

  /** Over every run, requests are conserved and each is answered at most once. */
  lemma {:induction false} RunOk(r: Routes, es: seq<Event>)
    requires Consistent(r) && Possible(r, es)
    ensures Consistent(Run(r, es)) && AnswersFinal(r, Run(r, es))
    decreases |es|
  {
    if es != [] {
      StepOk(r, es[0]);
      StepAnswersFinal(r, es[0]);
      RunOk(Step(r, es[0]), es[1..]);
    }
  }

  /** A peer's reply goes to a channel not answered before, on which just the request was asked that
      had been sent to that peer. */
  lemma ReplyReachesItsRequest(r: Routes, o: Outbound, answer: Answer)
    requires Consistent(r) && o in r.requests
    ensures
      var c := r.requests[o];
      && o in r.sent && c in r.issued && r.issued[c] == r.sent[o].request && KindOf(r.issued[c]) == o.kind
      && c !in r.answered && Replied(r, o, answer).answered == r.answered[c := answer]
  {
    assert RequestOk(r, o);
    assert AnswerOk(r, r.requests[o]);
  }

  /** A request that cannot be serialised is answered with nothing, for good, and nobody is asked. */
  lemma NotSerialised(r: Routes, request: Request, result: Channel, q: QueryId, es: seq<Event>)
    requires Consistent(r) && Enabled(r, Ask(request, false, result, q))
    requires Possible(Step(r, Ask(request, false, result, q)), es)
    ensures
      var t := Step(r, Ask(request, false, result, q));
      && t.queries == r.queries && t.requests == r.requests && t.sent == r.sent
      && result in Run(t, es).answered && Run(t, es).answered[result] == Nothing
  {
    AskedOk(r, request, false, result, q);
    RunOk(Step(r, Ask(request, false, result, q)), es);
  }

  // ----- a whole providers lookup -----

  /** The providers that the events report for a query. */
  function Reported(es: seq<Event>, q: QueryId): set<PeerId> {
    if es == [] then {}
    else (if es[0].Found? && es[0].q == q then es[0].providers else {}) + Reported(es[1..], q)
  }

  ghost predicate NotConcluded(es: seq<Event>, q: QueryId) {
    forall i :: 0 <= i < |es| ==> !(es[i].Conclude? && es[i].q == q)
  }

  lemma StepKeepsQuery(r: Routes, e: Event, q: QueryId)
    requires Consistent(r) && Enabled(r, e) && q in r.queries && !(e.Conclude? && e.q == q)
    ensures
      var more := if e.Found? && e.q == q then e.providers else {};
      q in Step(r, e).queries
      && Step(r, e).queries[q] == r.queries[q].(foundProviders := r.queries[q].foundProviders + more)
  {
    assert QueryOk(r, q);
    assert r.queries[q].foundProviders + {} == r.queries[q].foundProviders;
  }

  /** While a query is open, it collects the union of all batches, whatever else happens. */
  lemma {:induction false} LookupCollects(r: Routes, es: seq<Event>, q: QueryId)
    requires Consistent(r) && Possible(r, es) && NotConcluded(es, q) && q in r.queries
    ensures q in Run(r, es).queries
    ensures Run(r, es).queries[q] == r.queries[q].(foundProviders := r.queries[q].foundProviders + Reported(es, q))
    decreases |es|
  {
    if es == [] {
      assert r.queries[q].foundProviders + {} == r.queries[q].foundProviders;
    } else {
      StepKeepsQuery(r, es[0], q);
      StepOk(r, es[0]);
      LookupCollects(Step(r, es[0]), es[1..], q);
    }
  }

  // ----- one request a query -----

  ghost predicate UnsentOk(r: Routes, o: Outbound) {
    o in r.sent ==> r.sent[o].query !in r.queries && r.sent[o].query in r.seen
  }

  ghost predicate SentOnce(r: Routes, o: Outbound, p: Outbound) {
    o in r.sent && p in r.sent && r.sent[o].query == r.sent[p].query ==> o == p
  }

  /** No request has been sent for an open query, and at most one for any query. */
  ghost predicate Single(r: Routes) {
    && (forall o :: UnsentOk(r, o))
    && (forall o, p :: SentOnce(r, o, p))
  }

  lemma EmptyOk()
    ensures Consistent(EMPTY) && Single(EMPTY)
  {
  }

  lemma StepSingle(r: Routes, e: Event)
    requires Consistent(r) && Single(r) && Enabled(r, e)
    ensures Single(Step(r, e))
  {
    var t := Step(r, e);
    if e.Conclude? { assert QueryOk(r, e.q); }
    forall o
      ensures UnsentOk(t, o)
    {
      assert UnsentOk(r, o);
    }
    forall o, p
      ensures SentOnce(t, o, p)
    {
      assert SentOnce(r, o, p) && UnsentOk(r, o) && UnsentOk(r, p);
    }
  }

  /** Over every run from the beginning, a query is answered by at most one request to a peer. */
  lemma {:induction false} RunSingle(r: Routes, es: seq<Event>)
    requires Consistent(r) && Single(r) && Possible(r, es)
    ensures Single(Run(r, es))
    decreases |es|
  {
    if es != [] {
      StepSingle(r, es[0]);
      StepOk(r, es[0]);
      RunSingle(Step(r, es[0]), es[1..]);
    }
  }

  /** The requests sent for a query. */
  ghost function SentFor(r: Routes, q: QueryId): set<Outbound> {
    set o | o in r.sent && r.sent[o].query == q
  }

  /** A whole lookup: from asking, through any events, to the end of the query, by exhaustion or by an
      error. If any batch reported a provider, exactly one request goes out for the query, to a provider
      of some batch and for what was asked, and nothing is answered yet; otherwise the answer is nothing
      and no request goes out. */
  lemma LookupConcludes(
    r: Routes, request: Request, result: Channel, q: QueryId, es: seq<Event>, choice: Option<PeerId>, id: RequestId)
    requires Consistent(r) && Single(r) && Enabled(r, Ask(request, true, result, q))
    requires Possible(Asked(r, request, true, result, q), es) && NotConcluded(es, q)
    requires Enabled(Run(Asked(r, request, true, result, q), es), Conclude(q, choice, id))
    ensures
      var before := Run(Asked(r, request, true, result, q), es);
      var after := Concluded(before, q, choice, id);
      var o := Outbound(KindOf(request), id);
      q !in after.queries && SentFor(before, q) == {}
      && if Reported(es, q) == {}
         then after.answered == before.answered[result := Nothing] && after.sent == before.sent
         else
           && choice.Some? && choice.value in Reported(es, q)
           && o !in before.sent && after.sent == before.sent[o := Sent(choice.value, request, q)]
           && SentFor(after, q) == {o}
           && after.requests == before.requests[o := result]
           && after.answered == before.answered && result !in after.answered
  {
    var asked := Asked(r, request, true, result, q);
    var before := Run(asked, es);
    AskedOk(r, request, true, result, q);
    LookupCollects(asked, es, q);
    RunOk(asked, es);
    StepSingle(r, Ask(request, true, result, q));
    RunSingle(asked, es);
    forall o
      ensures o !in SentFor(before, q)
    {
      assert UnsentOk(before, o);
    }
    assert {} + Reported(es, q) == Reported(es, q);
    assert QueryOk(before, q);
    assert AnswerOk(before, result);
  }
}
