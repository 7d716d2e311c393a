/** A client's request on its way to the SDK: the method allow lists, the forbidden parameters, the
    wallet id that is forced onto it, and the text its cache key is a digest of. */
module QueryRequest {
  import opened Text
  import opened Json

  /** `params` is absent, an object, or any other JSON value. */
  datatype Request = Request(methodName: string, params: Option<Json>)

  datatype Error = NoMethod | MethodNotAllowed | ForbiddenParam(name: string) | AuthRequired

  datatype QueryResult = Query(request: Request) | Refused(error: Error)

  const RESOLVE := "resolve"
  const CLAIM_SEARCH := "claim_search"
  const WALLET_ID := "wallet_id"

  const FORBIDDEN_PARAMS := ["account_id", "new_sdk_server"]

  /** Methods anybody may call. */
  const RELAXED_METHODS := [
    "blob_announce", "status", RESOLVE, "get", "transaction_show", "stream_cost_estimate", CLAIM_SEARCH,
    "comment_list", "collection_resolve", "comment_react_list", "version", "routing_table_get"]

  /** Methods that take a wallet id, by what they act on. */
  const CONTENT_METHODS := [
    "get", "purchase_create", RESOLVE, CLAIM_SEARCH, "publish", "address_unused", "address_list", "address_is_mine",
    "account_list", "account_balance", "account_send", "account_max_address_gap"]
  const CHANNEL_METHODS := [
    "channel_abandon", "channel_create", "channel_list", "channel_update", "channel_export", "channel_import",
    "channel_sign", "collection_list", "collection_create", "collection_update", "collection_abandon"]
  const COMMENT_METHODS := [
    "comment_abandon", "comment_create", "comment_hide", "comment_update", "comment_react", "comment_pin",
    "comment_react_list", "claim_list", "stream_abandon", "stream_create", "stream_list", "stream_update",
    "stream_repost"]
  const SUPPORT_METHODS := [
    "support_abandon", "support_create", "support_list", "sync_apply", "sync_hash", "preference_get", "preference_set"]
  const TXO_METHODS := [
    "purchase_list", "transaction_list", "txo_list", "txo_spend", "txo_sum", "txo_plot", "utxo_list", "utxo_release"]
  const WALLET_METHODS := [
    "wallet_list", "wallet_send", "wallet_balance", "wallet_encrypt", "wallet_decrypt", "wallet_lock", "wallet_unlock",
    "wallet_status"]

  predicate IsRelaxed(m: string) { m in RELAXED_METHODS }

  predicate AcceptsWallet(m: string)
  {
    || m in CONTENT_METHODS || m in CHANNEL_METHODS || m in COMMENT_METHODS || m in SUPPORT_METHODS
    || m in TXO_METHODS || m in WALLET_METHODS
  }

  /** Only white space, as `strings.TrimSpace` sees it in the Latin-1 range. */
  predicate Blank(s: string)
  {
    forall i :: 0 <= i < |s| ==> s[i] == ' ' || 9 <= s[i] as int <= 13 || s[i] as int == 0x85 || s[i] as int == 0xA0
  }

  lemma BlankForms(s: string, c: char)
    ensures Blank("") && Blank(" \t\n\r") && !Blank("a")
    ensures Blank(s + [c]) ==> Blank(s)
  {
    assert "a"[0] == 'a';
    if Blank(s + [c]) {
      assert forall i :: 0 <= i < |s| ==> (s + [c])[i] == s[i];
    }
  }

  function ParamsMap(r: Request): Option<Fields>
  {
    if r.params.Some? && r.params.value.Obj? then Some(r.params.value.fields) else None
  }

  function FirstForbidden(fields: Fields, names: seq<string>): (r: Option<string>)
    ensures r.None? <==> forall i :: 0 <= i < |names| ==> names[i] !in fields
    ensures r.Some? ==> r.value in names && r.value in fields
  {
    if names == [] then None
    else if names[0] in fields then Some(names[0])
    else FirstForbidden(fields, names[1..])
  }

  /** `walletID` is empty for an anonymous caller. */
  function NewQuery(r: Request, walletID: string): QueryResult
  {
    var fields := ParamsMap(r);
    var bad := if fields.Some? then FirstForbidden(fields.value, FORBIDDEN_PARAMS) else None;
    if Blank(r.methodName) then Refused(NoMethod)
    else if !IsRelaxed(r.methodName) && !AcceptsWallet(r.methodName) then Refused(MethodNotAllowed)
    else if bad.Some? then Refused(ForbiddenParam(bad.value))
    else if !AcceptsWallet(r.methodName) then Query(r)
    else if walletID != "" then
      var sent := if fields.Some? then fields.value else map[];
      Query(Request(r.methodName, Some(Obj(sent[WALLET_ID := Str(walletID)]))))
    else if !IsRelaxed(r.methodName) then Refused(AuthRequired)
    else Query(r)
  }

  /** Whatever the client sent, an authenticated wallet method carries the caller's wallet id, and all
      else the client sent stays. */
  lemma WalletForced(r: Request, walletID: string)
    requires walletID != "" && AcceptsWallet(r.methodName) && NewQuery(r, walletID).Query?
    ensures var q := NewQuery(r, walletID).request;
            && q.methodName == r.methodName && ParamsMap(q).Some?
            && WALLET_ID in ParamsMap(q).value && ParamsMap(q).value[WALLET_ID] == Str(walletID)
            && (ParamsMap(r).Some? ==> ParamsMap(q).value - {WALLET_ID} == ParamsMap(r).value - {WALLET_ID})
            && (ParamsMap(r).None? ==> ParamsMap(q).value.Keys == {WALLET_ID})
  {
    hide IsRelaxed, AcceptsWallet;
  }

  /** Which requests go on, and as what: none with a forbidden parameter, none with a method that is on
      no list, and none that needs a wallet without one; what an anonymous caller sends goes on as it is. */
  lemma QueryOutcomes(r: Request, walletID: string)
    ensures Blank(r.methodName) ==> NewQuery(r, walletID) == Refused(NoMethod)
    ensures !Blank(r.methodName) && !IsRelaxed(r.methodName) && !AcceptsWallet(r.methodName) ==>
              NewQuery(r, walletID) == Refused(MethodNotAllowed)
    ensures r.params.Some? && r.params.value.Obj?
            && ("account_id" in r.params.value.fields || "new_sdk_server" in r.params.value.fields) ==>
              NewQuery(r, walletID).Refused?
    ensures NewQuery(r, walletID).Refused? && NewQuery(r, walletID).error.ForbiddenParam? ==>
              && r.params.Some? && r.params.value.Obj?
              && NewQuery(r, walletID).error.name in r.params.value.fields
              && NewQuery(r, walletID).error.name in {"account_id", "new_sdk_server"}
    ensures NewQuery(r, walletID) == Refused(AuthRequired) ==>
              walletID == "" && AcceptsWallet(r.methodName) && !IsRelaxed(r.methodName)
    ensures walletID == "" && !IsRelaxed(r.methodName) ==> NewQuery(r, walletID).Refused?
    ensures NewQuery(r, walletID).Query? && (walletID == "" || !AcceptsWallet(r.methodName)) ==>
              NewQuery(r, walletID).request == r
  {
    hide IsRelaxed, AcceptsWallet, Blank;
    assert "account_id" == FORBIDDEN_PARAMS[0] && "new_sdk_server" == FORBIDDEN_PARAMS[1];
  }

  /** These four take a wallet and do without one. */
  lemma OptionalWallet(m: string)
    requires m in {"resolve", "get", "claim_search", "comment_react_list"}
    ensures IsRelaxed(m) && AcceptsWallet(m)
  {
    assert "resolve" == RELAXED_METHODS[2] == CONTENT_METHODS[2] && "get" == RELAXED_METHODS[3] == CONTENT_METHODS[0];
    assert "claim_search" == RELAXED_METHODS[6] == CONTENT_METHODS[3];
    assert "comment_react_list" == RELAXED_METHODS[9] == COMMENT_METHODS[6];
  }

  /** A method with a wallet that is not one of those four. */
  predicate NeedsWallet(m: string) { m !in {"resolve", "get", "claim_search", "comment_react_list"} }

  lemma ContentNeedWallet(m: string)
    requires m in CONTENT_METHODS && NeedsWallet(m)
    ensures m !in RELAXED_METHODS
  {
  }

  lemma ChannelNeedWallet(m: string)
    requires m in CHANNEL_METHODS && NeedsWallet(m)
    ensures m !in RELAXED_METHODS
  {
  }

  lemma CommentNeedWallet(m: string)
    requires m in COMMENT_METHODS && NeedsWallet(m)
    ensures m !in RELAXED_METHODS
  {
  }

  lemma SupportNeedWallet(m: string)
    requires m in SUPPORT_METHODS && NeedsWallet(m)
    ensures m !in RELAXED_METHODS
  {
  }

  lemma TxoNeedWallet(m: string)
    requires m in TXO_METHODS && NeedsWallet(m)
    ensures m !in RELAXED_METHODS
  {
  }

  lemma WalletNeedWallet(m: string)
    requires m in WALLET_METHODS && NeedsWallet(m)
    ensures m !in RELAXED_METHODS
  {
  }

  /** Every other method that takes a wallet is refused without one, whatever is sent. */
  lemma WalletRequired(r: Request)
    requires AcceptsWallet(r.methodName) && NeedsWallet(r.methodName)
    ensures NewQuery(r, "").Refused?
  {
    var m := r.methodName;
    assert !IsRelaxed(m) by {
      hide NeedsWallet;
      if m in CONTENT_METHODS { ContentNeedWallet(m); }
      else if m in CHANNEL_METHODS { ChannelNeedWallet(m); }
      else if m in COMMENT_METHODS { CommentNeedWallet(m); }
      else if m in SUPPORT_METHODS { SupportNeedWallet(m); }
      else if m in TXO_METHODS { TxoNeedWallet(m); }
      else { WalletNeedWallet(m); }
    }
    hide IsRelaxed, AcceptsWallet;
    QueryOutcomes(r, "");
  }

  // ---- wallet ids ----

  /** `lbrytv-id.%d.wallet`; no id at all for a user id that is not positive. */
  function WalletID(user: int): string
  {
    if user <= 0 then "" else "lbrytv-id." + Decimal(user) + ".wallet"
  }

  lemma WalletIDText()
    ensures WalletID(1) == "lbrytv-id.1.wallet" && WalletID(0) == WalletID(-7) == ""
  {
    assert Decimal(1) == "1";
  }

  lemma WalletIDInjective(u: int, v: int)
    requires u > 0 && v > 0 && WalletID(u) == WalletID(v)
    ensures u == v
  {
    var p, d, e := "lbrytv-id.", Decimal(u), Decimal(v);
    assert |d| == |e|;
    assert (p + d + ".wallet")[10..10 + |d|] == d;
    assert (p + e + ".wallet")[10..10 + |e|] == e;
    DecimalRoundTrip(u);
    DecimalRoundTrip(v);
  }

  // ---- cache keys ----

  ghost function ParamsText(params: Option<Json>): string
  {
    if params.None? then "()" else Marshal(params.value)
  }

  /** The text whose MD5 sum is the cache key, for the empty meta key all queries use. */
  ghost function KeyText(r: Request): string
  {
    "[]request:" + r.methodName + ":" + ParamsText(r.params)
  }

  lemma KeyTextForm(m: string)
    ensures KeyText(Request(m, None)) == "[]request:" + m + ":()"
    ensures KeyText(Request(m, Some(Null))) == "[]request:" + m + ":null"
  {
  }

  ghost predicate ValidParams(params: Option<Json>) { params.Some? ==> Valid(params.value) }

  lemma ParamsTextInjective(p: Option<Json>, q: Option<Json>)
    requires ValidParams(p) && ValidParams(q) && ParamsText(p) == ParamsText(q)
    ensures p == q
  {
    if p.Some? { FirstChar(p.value, []); }
    if q.Some? { FirstChar(q.value, []); }
    if p.Some? && q.Some? {
      MarshalInjective(p.value, q.value);
    }
  }

  predicate NoColon(s: string) { forall i :: 0 <= i < |s| ==> s[i] != ':' }

  /** The method ends at the first colon. */
  lemma ColonSplits(m: string, x: string, n: string, y: string)
    requires NoColon(m) && NoColon(n) && m + ":" + x == n + ":" + y
    ensures m == n && x == y
  {
    var t := m + ":" + x;
    assert t[|m|] == ':' && t[|n|] == ':';
    assert forall i :: 0 <= i < |m| ==> t[i] == m[i];
    assert forall i :: 0 <= i < |n| ==> t[i] == n[i];
    assert |m| == |n|;
    assert t[..|m|] == m && t[..|n|] == n;
    assert t[|m| + 1..] == x && t[|n| + 1..] == y;
  }

  /** Different methods or parameters never share a key text. */
  lemma KeyTextInjective(a: Request, b: Request)
    requires NoColon(a.methodName) && NoColon(b.methodName) && ValidParams(a.params) && ValidParams(b.params)
    requires KeyText(a) == KeyText(b)
    ensures a == b
  {
    var p := "[]request:";
    Assoc(p, a.methodName, ":");
    Assoc(p, b.methodName, ":");
    Assoc(p, a.methodName + ":", ParamsText(a.params));
    Assoc(p, b.methodName + ":", ParamsText(b.params));
    DropPrefix(p, a.methodName + ":" + ParamsText(a.params), b.methodName + ":" + ParamsText(b.params));
    ColonSplits(a.methodName, ParamsText(a.params), b.methodName, ParamsText(b.params));
    ParamsTextInjective(a.params, b.params);
  }

  lemma NoColonsRelaxed(m: string)
    requires m in RELAXED_METHODS
    ensures NoColon(m)
  {
  }

  lemma NoColonsContent(m: string)
    requires m in CONTENT_METHODS
    ensures NoColon(m)
  {
  }

  lemma NoColonsChannel(m: string)
    requires m in CHANNEL_METHODS
    ensures NoColon(m)
  {
  }

  lemma NoColonsComment(m: string)
    requires m in COMMENT_METHODS
    ensures NoColon(m)
  {
  }

  lemma NoColonsSupport(m: string)
    requires m in SUPPORT_METHODS
    ensures NoColon(m)
  {
  }

  lemma NoColonsTxo(m: string)
    requires m in TXO_METHODS
    ensures NoColon(m)
  {
  }

  lemma NoColonsWallet(m: string)
    requires m in WALLET_METHODS
    ensures NoColon(m)
  {
  }

  lemma AllowedMethod(m: string)
    requires IsRelaxed(m) || AcceptsWallet(m)
    ensures NoColon(m)
  {
    hide NoColon;
    if m in CONTENT_METHODS { NoColonsContent(m); }
    else if m in CHANNEL_METHODS { NoColonsChannel(m); }
    else if m in COMMENT_METHODS { NoColonsComment(m); }
    else if m in SUPPORT_METHODS { NoColonsSupport(m); }
    else if m in TXO_METHODS { NoColonsTxo(m); }
    else if m in WALLET_METHODS { NoColonsWallet(m); }
    else { NoColonsRelaxed(m); }
  }

  lemma QueryValid(r: Request, walletID: string)
    requires NewQuery(r, walletID).Query? && ValidParams(r.params)
    ensures ValidParams(NewQuery(r, walletID).request.params)
  {
    hide IsRelaxed, AcceptsWallet;
    var q := NewQuery(r, walletID).request;
    if q != r {
      var fields := q.params.value.fields;
      forall k | k in fields ensures Valid(fields[k]) {
        if k == WALLET_ID {
          assert fields[k] == Str(walletID);
        } else {
          assert ParamsMap(r).Some? && fields[k] == ParamsMap(r).value[k];
        }
      }
    }
  }

  /** Requests of users that share a cache key are the same user's, whatever parameters were sent. */
  lemma UsersNeverShareKeys(u: int, v: int, a: Request, b: Request)
    requires u > 0 && v > 0 && AcceptsWallet(a.methodName) && ValidParams(a.params) && ValidParams(b.params)
    requires NewQuery(a, WalletID(u)).Query? && NewQuery(b, WalletID(v)).Query?
    requires KeyText(NewQuery(a, WalletID(u)).request) == KeyText(NewQuery(b, WalletID(v)).request)
    ensures u == v
  {
    hide AcceptsWallet, IsRelaxed, KeyText, NoColon;
    AllowedMethod(a.methodName);
    AllowedMethod(b.methodName);
    KeyTextInjective(NewQuery(a, WalletID(u)).request, NewQuery(b, WalletID(v)).request);
    WalletForced(a, WalletID(u));
    WalletForced(b, WalletID(v));
    WalletIDInjective(u, v);
  }

  /** The parameters a client sent are those of the other request, with this wallet id put in. */
  predicate SentWith(a: Request, b: Request, walletID: string)
  {
    && ParamsMap(a).Some? && WALLET_ID in ParamsMap(a).value && ParamsMap(a).value[WALLET_ID] == Str(walletID)
    && ParamsMap(a).value - {WALLET_ID} == (if ParamsMap(b).Some? then ParamsMap(b).value else map[]) - {WALLET_ID}
  }

  /** An anonymous caller's wallet id is passed through as it was sent, so an anonymous request shares a
      user's key exactly if it sent that user's wallet id and otherwise the same. */
  lemma AnonymousSharesKey(v: int, a: Request, b: Request)
    requires v > 0 && AcceptsWallet(b.methodName) && ValidParams(a.params) && ValidParams(b.params)
    requires NewQuery(a, "").Query? && NewQuery(b, WalletID(v)).Query?
    ensures KeyText(NewQuery(a, "").request) == KeyText(NewQuery(b, WalletID(v)).request)
            <==> a.methodName == b.methodName && SentWith(a, b, WalletID(v))
  {
    hide AcceptsWallet, IsRelaxed, KeyText, NoColon, Blank;
    var p, q := NewQuery(a, "").request, NewQuery(b, WalletID(v)).request;
    AllowedMethod(a.methodName);
    AllowedMethod(b.methodName);
    QueryValid(b, WalletID(v));
    assert p == a;
    if KeyText(p) == KeyText(q) {
      KeyTextInjective(p, q);
      WalletForced(b, WalletID(v));
    }
    if a.methodName == b.methodName && SentWith(a, b, WalletID(v)) {
      SameFields(ParamsMap(a).value, ParamsMap(q).value);
    }
  }

  /** An input for which it does: user 1's `resolve` without parameters, and the same sent anonymously
      with that user's wallet id. */
  lemma AnonymousResolveShares()
    ensures var a := Request(RESOLVE, Some(Obj(map[WALLET_ID := Str(WalletID(1))])));
            var b := Request(RESOLVE, None);
            && NewQuery(a, "") == Query(a) && NewQuery(b, WalletID(1)).Query?
            && KeyText(NewQuery(a, "").request) == KeyText(NewQuery(b, WalletID(1)).request)
  {
    assert RESOLVE == RELAXED_METHODS[2] && RESOLVE == CONTENT_METHODS[2];
    assert IsRelaxed(RESOLVE) && AcceptsWallet(RESOLVE);
    assert RESOLVE[0] == 'r' && !Blank(RESOLVE) && WalletID(1) != "";
    hide IsRelaxed, AcceptsWallet, Blank, WalletID, KeyText;
  }

  lemma SameFields(f: Fields, g: Fields)
    requires WALLET_ID in f && WALLET_ID in g && f[WALLET_ID] == g[WALLET_ID] && f - {WALLET_ID} == g - {WALLET_ID}
    ensures f == g
  {
    assert forall k :: k in f <==> k == WALLET_ID || k in f - {WALLET_ID};
    assert forall k :: k in g <==> k == WALLET_ID || k in g - {WALLET_ID};
    forall k | k in f ensures f[k] == g[k] {
      if k != WALLET_ID {
        assert (f - {WALLET_ID})[k] == f[k] && (g - {WALLET_ID})[k] == g[k];
      }
    }
  }
}
