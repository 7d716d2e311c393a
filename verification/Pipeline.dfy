/** A request's way through the caller: the query is made, the hooks registered for its method run in
    order, and what no hook has answered goes to the SDK. */
module Pipeline {
  import opened Text
  import opened Json
  import opened QueryRequest
  import opened ClaimSearch
  import QueryCache

  datatype Stage = StatusStage | GetStage | RewriteStage | CacheStage

  datatype Hook = Hook(methodName: string, stage: Stage)

  /** The default hooks, as they are registered. */
  const HOOKS := [
    Hook("status", StatusStage), Hook("get", GetStage), Hook(CLAIM_SEARCH, RewriteStage),
    Hook(RESOLVE, CacheStage), Hook(CLAIM_SEARCH, CacheStage)]

  /** A hook applies to every method its own begins. */
  predicate Matches(hook: Hook, m: string) { hook.methodName <= m }

  /** The letters that tell the hooked methods from the other allowed ones. */
  predicate Telling(m: string)
  {
    && (|m| > 0 && m[0] == 'g' ==> m == "get")
    && (|m| > 2 && m[0] == 's' && m[2] == 'a' ==> m == "status")
    && (|m| > 1 && m[0] == 'r' && m[1] == 'e' ==> m == RESOLVE)
    && (|m| > 10 && m[0] == 'c' && m[1] == 'l' ==> m == CLAIM_SEARCH)
  }

  lemma RelaxedTelling(m: string)
    requires m in RELAXED_METHODS
    ensures Telling(m)
  {
  }

  lemma ContentTelling(m: string)
    requires m in CONTENT_METHODS
    ensures Telling(m)
  {
  }

  lemma ChannelTelling(m: string)
    requires m in CHANNEL_METHODS
    ensures Telling(m)
  {
  }

  lemma CommentTelling(m: string)
    requires m in COMMENT_METHODS
    ensures Telling(m)
  {
  }

  lemma SupportTelling(m: string)
    requires m in SUPPORT_METHODS
    ensures Telling(m)
  {
  }

  lemma TxoTelling(m: string)
    requires m in TXO_METHODS
    ensures Telling(m)
  {
  }

  lemma WalletTelling(m: string)
    requires m in WALLET_METHODS
    ensures Telling(m)
  {
  }

  /** No allowed method but its own begins with a hook's method. */
  lemma HooksAreExact(m: string, i: nat)
    requires (IsRelaxed(m) || AcceptsWallet(m)) && i < |HOOKS|
    ensures Matches(HOOKS[i], m) <==> HOOKS[i].methodName == m
  {
    assert Telling(m) by {
      hide Telling;
      if m in CONTENT_METHODS { ContentTelling(m); }
      else if m in CHANNEL_METHODS { ChannelTelling(m); }
      else if m in COMMENT_METHODS { CommentTelling(m); }
      else if m in SUPPORT_METHODS { SupportTelling(m); }
      else if m in TXO_METHODS { TxoTelling(m); }
      else if m in WALLET_METHODS { WalletTelling(m); }
      else { RelaxedTelling(m); }
    }
    hide IsRelaxed, AcceptsWallet;
    if HOOKS[i].methodName <= m {
      var h := HOOKS[i].methodName;
      assert m[0] == h[0] && m[1] == h[1] && m[2] == h[2];
    }
  }

  /** What the cache gives for a request: a kept result and error without id, nothing, or a failure. */
  datatype CacheAnswer = Kept(resp: QueryCache.Response) | PassOn | Fault

  datatype CallResult = NoEndpoint | Refusal(error: Error) | SdkError | SendError | Responded(rpc: QueryCache.Rpc)

  /** Everything a request meets on its way: the hooks' own results, the cache, and the SDK, which gets
      the request with its id and whose response comes with an id of its own. */
  datatype World = World(
    now: int, othersDecode: bool, status: QueryCache.Response, get: Option<QueryCache.Response>,
    lookup: Request -> CacheAnswer, send: (int, Request) -> Option<QueryCache.Rpc>)

  function Respond(id: int, resp: QueryCache.Response): CallResult { Responded(QueryCache.Rpc(id, resp)) }

  /** The SDK's response is passed on as it came. */
  function Direct(id: int, w: World, q: Request): CallResult
  {
    match w.send(id, q) case Some(rpc) => Responded(rpc) case None => SendError
  }

  function ParamsOf(q: Request): Fields { if ParamsMap(q).Some? then ParamsMap(q).value else map[] }

  /** A search as it leaves the rewriting hook. */
  function Prepared(q: Request, now: int, othersDecode: bool): Request
  {
    match Rewrite(ParamsOf(q), now, othersDecode)
    case Rewritten(fields) => Request(CLAIM_SEARCH, Some(Obj(fields)))
    case DecodeError => q
  }

  /** Did the request get through to the SDK without a hook answering it? */
  predicate Passed(q: Request, w: World)
  {
    q.methodName !in ["status", "get"] && (q.methodName in [RESOLVE, CLAIM_SEARCH] ==> w.lookup(q).PassOn?)
  }

  /** The result of asking the cache for `q`, and the SDK if the cache passes on: a kept answer goes out
      under the request's id, the SDK's response as it came. */
  predicate CachedResult(res: CallResult, id: int, w: World, q: Request)
  {
    match w.lookup(q)
    case Kept(resp) => res == Responded(QueryCache.Rpc(id, resp))
    case Fault => res == SdkError
    case PassOn => SdkResult(res, id, w, q)
  }

  predicate SdkResult(res: CallResult, id: int, w: World, q: Request)
  {
    if w.send(id, q).Some? then res == Responded(w.send(id, q).value) else res == SendError
  }

  /** Searches reach the cache, and the SDK behind it, in rewritten form only; `resolve` as it is; the
      two built-in answers come before either, and all other methods go to the SDK directly. What a hook
      answers carries the id of the request it is for; what comes from the SDK carries the SDK's. */
  method Call(endpoint: string, userID: int, id: int, req: Request, w: World) returns (res: CallResult)
    ensures endpoint == "" <==> res == NoEndpoint
    ensures endpoint != "" && NewQuery(req, WalletID(userID)).Refused? ==>
              res == Refusal(NewQuery(req, WalletID(userID)).error)
    ensures endpoint != "" && NewQuery(req, WalletID(userID)).Query? ==>
              var q := NewQuery(req, WalletID(userID)).request;
              && (q.methodName == "status" ==> res == Responded(QueryCache.Rpc(id, w.status)))
              && (q.methodName == "get" ==>
                    res == if w.get.Some? then Responded(QueryCache.Rpc(id, w.get.value)) else SdkError)
              && (q.methodName == "resolve" ==> CachedResult(res, id, w, q))
              && (q.methodName == "claim_search" ==>
                    var o := if q.params.Some? && q.params.value.Obj? then q.params.value.fields else map[];
                    match Rewrite(o, w.now, w.othersDecode)
                    case DecodeError => res == SdkError
                    case Rewritten(p) => CachedResult(res, id, w, Request("claim_search", Some(Obj(p)))))
              && (q.methodName !in ["status", "get", "resolve", "claim_search"] ==> SdkResult(res, id, w, q))
    ensures res.Responded? && res.rpc.id != id ==> exists q :: Passed(q, w) && w.send(id, q) == Some(res.rpc)
  {
    hide IsRelaxed, AcceptsWallet, Rewrite, Matches, Decodes, WalletID;
    if endpoint == "" {
      return NoEndpoint;
    }
    var walletID := "";
    if userID != 0 {
      walletID := WalletID(userID);
    }
    assert walletID == WalletID(userID) by { NoWallet(userID); }
    var made := NewQuery(req, walletID);
    if made.Refused? {
      return Refusal(made.error);
    }
    var q := made.request;
    ghost var m := q.methodName;
    QueryAllowed(req, WalletID(userID));
    for i := 0 to |HOOKS|
      invariant q == if m == CLAIM_SEARCH && i > 2 then Prepared(made.request, w.now, w.othersDecode) else made.request
      invariant m == "status" ==> i == 0
      invariant m == "get" ==> i <= 1
      invariant m == RESOLVE && i > 3 ==> w.lookup(q) == PassOn
      invariant m == CLAIM_SEARCH && i > 2 ==> Rewrite(ParamsOf(made.request), w.now, w.othersDecode).Rewritten?
      invariant m == CLAIM_SEARCH && i > 4 ==> w.lookup(q) == PassOn
    {
      HooksAreExact(m, i);
      if Matches(HOOKS[i], q.methodName) {
        match HOOKS[i].stage {
          case StatusStage =>
            return Respond(id, w.status);
          case GetStage =>
            return if w.get.Some? then Respond(id, w.get.value) else SdkError;
          case RewriteStage =>
            var rewritten := PreflightClaimSearch(ParamsMap(q), w.now, w.othersDecode);
            if rewritten.DecodeError? {
              return SdkError;
            }
            q := Request(q.methodName, Some(Obj(rewritten.fields)));
          case CacheStage =>
            var answer := w.lookup(q);
            if answer.Fault? {
              return SdkError;
            } else if answer.Kept? {
              return Respond(id, answer.resp);
            }
        }
      }
    }
    assert Passed(q, w);
    res := Direct(id, w, q);
  }

  lemma NoWallet(userID: int)
    ensures userID == 0 ==> WalletID(userID) == ""
  {
  }

  /** Whatever a user sent, what the cache is asked for and the SDK gets is for that user's wallet. */
  lemma UserCarriesWallet(userID: int, req: Request, now: int, othersDecode: bool)
    requires userID > 0 && AcceptsWallet(req.methodName) && NewQuery(req, WalletID(userID)).Query?
    ensures var q := NewQuery(req, WalletID(userID)).request;
            && "wallet_id" in ParamsOf(q) && ParamsOf(q)["wallet_id"] == Str(WalletID(userID))
            && "wallet_id" in ParamsOf(Prepared(q, now, othersDecode))
            && ParamsOf(Prepared(q, now, othersDecode))["wallet_id"] == Str(WalletID(userID))
  {
    assert WalletID(userID) != "";
    WalletForced(req, WalletID(userID));
    var q := NewQuery(req, WalletID(userID)).request;
    hide AcceptsWallet, IsRelaxed, NewQuery, Rewrite, Decodes, AsList, WalletID;
    if Rewrite(ParamsOf(q), now, othersDecode).Rewritten? {
      RewriteKeepsWallet(ParamsOf(q), now, othersDecode);
    }
  }

  lemma RewriteKeepsWallet(o: Fields, now: int, othersDecode: bool)
    requires Rewrite(o, now, othersDecode).Rewritten? && "wallet_id" in o
    ensures var p := Rewrite(o, now, othersDecode).fields; "wallet_id" in p && p["wallet_id"] == o["wallet_id"]
  {
    OnlyThreeKeys(o, now);
    var p := Rewrite(o, now, othersDecode).fields;
    hide Rewrite, Decodes, AsList;
    assert "wallet_id"[0] == 'w' && NOT_TAGS[0] == 'n' && RELEASE_TIME[0] == 'r' && ORDER_BY[0] == 'o';
    assert "wallet_id" in Others(o) && "wallet_id" in Others(p) && Others(o)["wallet_id"] == Others(p)["wallet_id"];
  }

  lemma QueryAllowed(r: Request, walletID: string)
    requires NewQuery(r, walletID).Query?
    ensures var m := NewQuery(r, walletID).request.methodName; m == r.methodName && (IsRelaxed(m) || AcceptsWallet(m))
  {
    hide IsRelaxed, AcceptsWallet;
  }
}
