/** Who may watch a stream: the tags that restrict it, the checks for owners, moderators, buyers and
    members, and the `get` request, which buys a stream with a fee when nothing shows it was bought. */
module StreamAccess {
  import opened Text
  import opened Json
  import opened QueryRequest

  // ---- tags ----

  datatype Access = Free | Scheduled | Purchase | Rental | MembersOnly | Unlisted

  /** How one tag restricts a stream, at a given instant. */
  function TagAccess(tag: string, release: int, now: int): Access
  {
    if (tag == "c:scheduled:hide" || tag == "c:scheduled:show") && release > now then Scheduled
    else if "purchase:" <= tag || tag == "c:purchase" then Purchase
    else if "rental:" <= tag || tag == "c:rental" then Rental
    else if tag == "c:members-only" then MembersOnly
    else if tag == "c:unlisted" then Unlisted
    else Free
  }

  /** Which tags restrict how: each kind exactly by its own tags, however the others are tested. */
  lemma TagKinds(tag: string, release: int, now: int)
    ensures TagAccess(tag, release, now) == Scheduled <==>
              tag in {"c:scheduled:hide", "c:scheduled:show"} && release > now
    ensures TagAccess(tag, release, now) == Purchase <==> "purchase:" <= tag || tag == "c:purchase"
    ensures TagAccess(tag, release, now) == Rental <==> "rental:" <= tag || tag == "c:rental"
    ensures TagAccess(tag, release, now) == MembersOnly <==> tag == "c:members-only"
    ensures TagAccess(tag, release, now) == Unlisted <==> tag == "c:unlisted"
  {
    assert tag != [] ==> ("purchase:" <= tag ==> tag[0] == 'p') && ("rental:" <= tag ==> tag[0] == 'r');
    assert "c:scheduled:hide"[2] == 's' && "c:purchase"[2] == 'p' && "c:rental"[2] == 'r' && "c:members-only"[2] == 'm';
    assert "c:scheduled:show"[2] == 's' && "c:unlisted"[2] == 'u';
  }

  datatype Claim = Claim(
    tags: seq<string>, release: int, mine: bool, fee: nat, receipt: Option<string>, hasSource: bool)

  /** `k` is the first tag that restricts the claim. */
  predicate Decides(c: Claim, now: int, k: int)
  {
    && 0 <= k < |c.tags| && TagAccess(c.tags[k], c.release, now) != Free
    && forall i :: 0 <= i < k ==> TagAccess(c.tags[i], c.release, now) == Free
  }

  predicate Unrestricted(c: Claim, now: int)
  {
    forall i :: 0 <= i < |c.tags| ==> TagAccess(c.tags[i], c.release, now) == Free
  }

  method ScanTags(c: Claim, now: int) returns (access: Access)
    ensures access == Free <==> Unrestricted(c, now)
    ensures access != Free ==> exists k :: Decides(c, now, k) && access == TagAccess(c.tags[k], c.release, now)
    ensures forall k :: && 0 <= k < |c.tags| && TagAccess(c.tags[k], c.release, now) != Free
                        && (forall i :: 0 <= i < k ==> TagAccess(c.tags[i], c.release, now) == Free)
              ==> access == TagAccess(c.tags[k], c.release, now)
    ensures (forall k :: 0 <= k < |c.tags| ==> TagAccess(c.tags[k], c.release, now) == Free) ==> access == Free
  {
    for i := 0 to |c.tags|
      invariant forall j :: 0 <= j < i ==> TagAccess(c.tags[j], c.release, now) == Free
    {
      access := TagAccess(c.tags[i], c.release, now);
      if access != Free {
        assert Decides(c, now, i);
        return;
      }
    }
    access := Free;
  }

  // ---- access ----

  datatype Bought = Bought(status: string, kind: string, validThrough: int)

  /** The wallet id of the caller, empty without a user id, and what the account service says of the
      user. `user` is false without a user or a client for the service; `purchases` and `perk` are None
      if the call fails. */
  datatype Session = Session(
    walletID: string, user: bool, moderator: bool, purchases: Option<seq<Bought>>, perk: Option<bool>,
    signature: Option<string>, signatureTs: Option<string>, signatureValid: bool, livestream: bool)

  datatype Lookup = LookupError | NoPurchase | Purchased(bought: Bought)

  /** The first listed purchase, if it is confirmed or submitted. */
  function CustomerPurchase(s: Session): Lookup
  {
    if !s.user || s.purchases.None? then LookupError
    else if s.purchases.value == [] then NoPurchase
    else
      var b := s.purchases.value[0];
      if b.status != "confirmed" && b.status != "submitted" then NoPurchase else Purchased(b)
  }

  datatype Denial =
    | MissingSignature | MissingTimestamp | BadSignature | NotReleased | NoLookup | NoAccess | WrongType | Expired

  datatype Verdict = Denied(why: Denial) | Open | Signed(livestream: bool)

  /** What entitles somebody who is neither owner nor moderator. */
  predicate Entitled(access: Access, s: Session, now: int)
  {
    match access
    case Free => true
    case Scheduled => false
    case Purchase => CustomerPurchase(s).Purchased?
    case Rental =>
      && CustomerPurchase(s).Purchased? && CustomerPurchase(s).bought.kind == "rental"
      && now <= CustomerPurchase(s).bought.validThrough
    case MembersOnly => s.user && s.perk == Some(true)
    case Unlisted => s.signature.Some? && s.signatureTs.Some? && s.signatureValid
  }

  /** What each kind asks of the session, field by field. */
  lemma AccessRules(s: Session, now: int)
    ensures !Entitled(Scheduled, s, now)
    ensures Entitled(Purchase, s, now) <==>
              && s.user && s.purchases.Some? && |s.purchases.value| > 0
              && s.purchases.value[0].status in {"confirmed", "submitted"}
    ensures Entitled(Rental, s, now) <==>
              && s.user && s.purchases.Some? && |s.purchases.value| > 0
              && s.purchases.value[0].status in {"confirmed", "submitted"}
              && s.purchases.value[0].kind == "rental" && now <= s.purchases.value[0].validThrough
    ensures Entitled(MembersOnly, s, now) <==> s.user && s.perk.Some? && s.perk.value
    ensures Entitled(Unlisted, s, now) <==> s.signature.Some? && s.signatureTs.Some? && s.signatureValid
  {
  }

  predicate IsModerator(s: Session) { s.user && s.moderator }

  ghost predicate MayWatch(c: Claim, s: Session, now: int)
  {
    || Unrestricted(c, now) || c.mine || IsModerator(s)
    || exists k :: Decides(c, now, k) && Entitled(TagAccess(c.tags[k], c.release, now), s, now)
  }

  /** `CheckStreamAccess` opens a stream nothing restricts; a restricted one is given as a signed URL,
      of the kind that was asked for, exactly to the owner, to moderators and to the entitled. */
  method CheckStreamAccess(c: Claim, s: Session, now: int) returns (v: Verdict)
    ensures v.Open? <==> Unrestricted(c, now)
    ensures v.Signed? ==> v.livestream == s.livestream
    ensures !v.Denied? <==> MayWatch(c, s, now)
    ensures forall k :: Decides(c, now, k) ==>
              (v.Denied? <==> && !c.mine && !(s.user && s.moderator)
                              && !Entitled(TagAccess(c.tags[k], c.release, now), s, now))
  {
    var access := ScanTags(c, now);
    if access == Free {
      return Open;
    }
    ghost var k :| Decides(c, now, k) && access == TagAccess(c.tags[k], c.release, now);
    assert forall j :: Decides(c, now, j) ==> j == k;
    if c.mine || IsModerator(s) {
      return Signed(s.livestream);
    }
    v := CheckEntitled(access, s, now);
  }

  method CheckEntitled(access: Access, s: Session, now: int) returns (v: Verdict)
    requires access != Free
    ensures !v.Open? && (v.Signed? ==> v.livestream == s.livestream)
    ensures v.Signed? <==> Entitled(access, s, now)
    ensures v == Denied(NotReleased) <==> access == Scheduled
    ensures v == Denied(MissingSignature) <==> access == Unlisted && s.signature.None?
    ensures v == Denied(MissingTimestamp) <==> access == Unlisted && s.signature.Some? && s.signatureTs.None?
    ensures v == Denied(WrongType) || v == Denied(Expired) ==> access == Rental && Entitled(Purchase, s, now)
    ensures v == Denied(Expired) ==> s.purchases.value[0].kind == "rental"
    ensures v == Denied(NoLookup) <==>
              || (access in {Purchase, Rental} && (!s.user || s.purchases.None?))
              || (access == MembersOnly && (!s.user || s.perk.None?))
  {
    var signed := Signed(s.livestream);
    if access == Unlisted {
      if s.signature.None? { return Denied(MissingSignature); }
      if s.signatureTs.None? { return Denied(MissingTimestamp); }
      if !s.signatureValid { return Denied(BadSignature); }
      return signed;
    } else if access == Scheduled {
      return Denied(NotReleased);
    } else if access == MembersOnly {
      if !s.user || s.perk.None? { return Denied(NoLookup); }
      if !s.perk.value { return Denied(NoAccess); }
      return signed;
    }
    var purchase := CustomerPurchase(s);
    if purchase == LookupError { return Denied(NoLookup); }
    if purchase == NoPurchase { return Denied(NoAccess); }
    if access == Rental {
      if purchase.bought.kind != "rental" { return Denied(WrongType); }
      if now > purchase.bought.validThrough { return Denied(Expired); }
    }
    return signed;
  }

  // ---- scheduled streams and the order of tags ----

  /** Nobody but owners and moderators is let in. */
  ghost predicate HeldBack(c: Claim, now: int)
  {
    forall s: Session, k :: Decides(c, now, k) ==> !Entitled(TagAccess(c.tags[k], c.release, now), s, now)
  }

  /** A stream scheduled for later is held back exactly if its scheduling tag comes before every other
      tag that restricts it. */
  lemma ScheduledHeldBack(c: Claim, now: int, i: nat)
    requires i < |c.tags| && TagAccess(c.tags[i], c.release, now) == Scheduled
    ensures HeldBack(c, now) <==> exists k :: Decides(c, now, k) && TagAccess(c.tags[k], c.release, now) == Scheduled
  {
    var k := FirstTag(c, now, i);
    assert forall j :: Decides(c, now, j) ==> j == k;
    var access := TagAccess(c.tags[k], c.release, now);
    if access != Scheduled {
      var bought := Bought("confirmed", "rental", now);
      var s := Session("", true, false, Some([bought]), Some(true), Some(""), Some(""), true, false);
      assert CustomerPurchase(s) == Purchased(bought);
      assert Entitled(access, s, now);
    }
  }

  lemma FirstTag(c: Claim, now: int, i: nat) returns (k: nat)
    requires i < |c.tags| && TagAccess(c.tags[i], c.release, now) != Free
    ensures Decides(c, now, k) && k <= i
  {
    k := 0;
    while TagAccess(c.tags[k], c.release, now) == Free
      invariant k <= i && forall j :: 0 <= j < k ==> TagAccess(c.tags[j], c.release, now) == Free
      decreases i - k
    {
      k := k + 1;
    }
  }

  /** The same two tags in the other order let members in before the release. */
  lemma OrderMatters(now: int)
    ensures HeldBack(Claim(["c:scheduled:show", "c:members-only"], now + 1, false, 0, None, true), now)
    ensures !HeldBack(Claim(["c:members-only", "c:scheduled:show"], now + 1, false, 0, None, true), now)
  {
    var c := Claim(["c:scheduled:show", "c:members-only"], now + 1, false, 0, None, true);
    var d := Claim(["c:members-only", "c:scheduled:show"], now + 1, false, 0, None, true);
    assert Decides(c, now, 0) && Decides(d, now, 0);
    ScheduledHeldBack(c, now, 0);
    ScheduledHeldBack(d, now, 1);
    assert forall k :: Decides(d, now, k) ==> k == 0;
  }

  // ---- the get request ----

  /** What `purchase_create` comes back with. */
  datatype PurchaseReply = SendFailed | AlreadyBought | NoPrice | Rejected | Made

  datatype Url = Plain | SignedUrl(livestream: bool) | Paid(reference: string) | Arfleet(url: string)

  datatype Result = Fails | Serves(url: Url)

  /** The collaborators of one request: whether signing and token making work, the purchase, the claim
      resolved again after it, and the Arfleet URL if that CDN is enabled and has one. */
  datatype World = World(
    signs: bool, validBase: bool, makesToken: bool, purchase: PurchaseReply, again: Option<Claim>,
    arfleet: Option<string>)

  const PURCHASE_CREATE := "purchase_create"

  function PurchaseRequest(url: string): Request
  {
    Request(PURCHASE_CREATE, Some(Obj(map["url" := Str(url), "blocking" := Bool(true)])))
  }

  /** A purchase can be asked for with a wallet only, and then it is for that wallet. */
  lemma PurchaseNeedsWallet(url: string, walletID: string)
    ensures NewQuery(PurchaseRequest(url), walletID)
         == if walletID == "" then Refused(AuthRequired)
            else Query(Request(PURCHASE_CREATE,
                   Some(Obj(map["url" := Str(url), "blocking" := Bool(true), WALLET_ID := Str(walletID)]))))
  {
    var fields := map["url" := Str(url), "blocking" := Bool(true)];
    assert PURCHASE_CREATE[0] == 'p' && !Blank(PURCHASE_CREATE);
    assert PURCHASE_CREATE == CONTENT_METHODS[1];
    assert !IsRelaxed(PURCHASE_CREATE);
    assert FirstForbidden(fields, FORBIDDEN_PARAMS).None?;
    assert fields[WALLET_ID := Str(walletID)]
        == map["url" := Str(url), "blocking" := Bool(true), WALLET_ID := Str(walletID)];
  }

  /** The stream costs something, and nothing shows that this caller has bought it. */
  predicate MustBuy(c: Claim, s: Session)
  {
    c.fee > 0 && !c.mine && c.receipt.None? && !CustomerPurchase(s).Purchased?
  }

  /** The SDK is asked to buy the stream. */
  predicate Buys(c: Claim, s: Session) { MustBuy(c, s) && s.walletID != "" }

  /** The SDK was asked, and says that the stream has no price after all. */
  predicate SaidFree(c: Claim, s: Session, w: World) { Buys(c, s) && w.purchase.NoPrice? }

  predicate PaysFor(c: Claim, s: Session, w: World) { c.fee > 0 && !SaidFree(c, s, w) }

  /** The reference a paid token carries, when there is one to make. */
  function Reference(c: Claim, s: Session, w: World): Option<string>
  {
    if c.mine then Some("owner")
    else if c.receipt.Some? then c.receipt
    else if CustomerPurchase(s).Purchased? then Some("customer_list_confirmed")
    else if Buys(c, s) && w.purchase.Made? && w.again.Some? then w.again.value.receipt
    else None
  }

  predicate HasArfleet(w: World) { w.arfleet.Some? && w.arfleet.value != "" }

  /** What comes of the request, for a claim as it was resolved. */
  ghost function Served(c: Claim, s: Session, w: World, now: int): Result
  {
    if !Unrestricted(c, now) then
      if MayWatch(c, s, now) && w.signs && (if s.livestream then w.validBase else c.hasSource)
      then Serves(SignedUrl(s.livestream)) else Fails
    else if !c.hasSource || (PaysFor(c, s, w) && (Reference(c, s, w).None? || !w.makesToken)) then Fails
    else if HasArfleet(w) then Serves(Arfleet(w.arfleet.value))
    else if PaysFor(c, s, w) then Serves(Paid(Reference(c, s, w).value))
    else Serves(Plain)
  }

  /** The hook as it is written. `sent` is the purchase the SDK was asked for: at most one, exactly if
      the stream is open, costs something, nothing shows a purchase and the caller has a wallet; it is
      for that wallet. */
  method PreflightGet(c: Claim, url: string, s: Session, w: World, now: int)
    returns (res: Result, sent: Option<Request>)
    ensures res == Served(c, s, w, now)
    ensures res.Serves? ==> MayWatch(c, s, now)
    ensures !Unrestricted(c, now) ==>
              (res.Serves? <==> MayWatch(c, s, now) && w.signs && (if s.livestream then w.validBase else c.hasSource))
    ensures Unrestricted(c, now) ==>
              (res.Serves? <==>
                 && c.hasSource
                 && (|| c.fee == 0 || (sent.Some? && w.purchase.NoPrice?)
                     || (&& w.makesToken
                         && (|| c.mine || c.receipt.Some? || Entitled(Purchase, s, now)
                             || (sent.Some? && w.purchase.Made? && w.again.Some? && w.again.value.receipt.Some?)))))
    ensures res.Serves? ==> (res.url.SignedUrl? <==> !Unrestricted(c, now))
    ensures sent.Some? <==> Unrestricted(c, now) && Buys(c, s)
    ensures sent.Some? <==>
              && Unrestricted(c, now) && c.fee > 0 && !c.mine && c.receipt.None? && s.walletID != ""
              && !(&& s.user && s.purchases.Some? && |s.purchases.value| > 0
                   && s.purchases.value[0].status in {"confirmed", "submitted"})
    ensures res.Serves? && Unrestricted(c, now) ==>
              (res.url.Arfleet? <==> w.arfleet.Some? && w.arfleet.value != "")
    ensures res.Serves? && res.url.Arfleet? ==> w.arfleet == Some(res.url.url)
    ensures res.Serves? && res.url.Plain? ==> c.fee == 0 || (sent.Some? && w.purchase.NoPrice?)
    ensures res.Serves? && res.url.Paid? ==>
              && c.fee > 0
              && res.url.reference
                 == (if c.mine then "owner"
                     else if c.receipt.Some? then c.receipt.value
                     else if sent.None? then "customer_list_confirmed"
                     else if w.again.Some? && w.again.value.receipt.Some? then w.again.value.receipt.value else "")
    ensures sent.Some? && res.Serves? && !w.purchase.NoPrice? ==>
              w.purchase.Made? && w.again.Some? && w.again.value.receipt.Some?
    ensures sent.Some? ==>
              && sent.value.methodName == "purchase_create" && ParamsMap(sent.value).Some?
              && ParamsMap(sent.value).value
                 == map["url" := Str(url), "blocking" := Bool(true), WALLET_ID := Str(s.walletID)]
  {
    hide NewQuery, PurchaseRequest;
    sent := None;
    res := Fails;
    var v := CheckStreamAccess(c, s, now);
    if v.Denied? {
      return;
    }
    if v.Signed? {
      if w.signs && (if v.livestream then w.validBase else c.hasSource) {
        res := Serves(SignedUrl(v.livestream));
      }
      return;
    }
    var paid, reference := c.fee > 0, "";
    if c.fee > 0 {
      if c.mine {
        reference := "owner";
      } else if c.receipt.Some? {
        reference := c.receipt.value;
      } else {
        if CustomerPurchase(s).Purchased? {
          reference := "customer_list_confirmed";
        }
        if reference == "" {
          PurchaseNeedsWallet(url, s.walletID);
          var made := NewQuery(PurchaseRequest(url), s.walletID);
          if made.Refused? {
            return;
          }
          sent := Some(made.request);
          match w.purchase
          case SendFailed => return;
          case AlreadyBought => return;
          case Rejected => return;
          case NoPrice => paid := false;
          case Made =>
            if w.again.None? || w.again.value.receipt.None? {
              return;
            }
            reference := w.again.value.receipt.value;
        }
      }
    }
    if !c.hasSource || (paid && !w.makesToken) {
      return;
    }
    if HasArfleet(w) {
      res := Serves(Arfleet(w.arfleet.value));
    } else {
      res := Serves(if paid then Paid(reference) else Plain);
    }
  }

  /** Which URL goes out, in every case: signed exactly for a restricted stream, and of the kind asked
      for; Arfleet's exactly if there is one for an open stream; of the others a paid one exactly if the
      stream has a price and the SDK has not said otherwise. */
  lemma ServedUrl(c: Claim, s: Session, w: World, now: int)
    requires Served(c, s, w, now).Serves?
    ensures var url := Served(c, s, w, now).url;
            && (url.SignedUrl? <==> !Unrestricted(c, now)) && (url.SignedUrl? ==> url.livestream == s.livestream)
            && (url.Arfleet? <==> Unrestricted(c, now) && HasArfleet(w))
            && (url.Paid? <==> Unrestricted(c, now) && !HasArfleet(w) && PaysFor(c, s, w))
            && (url.Plain? <==> Unrestricted(c, now) && !HasArfleet(w) && !PaysFor(c, s, w))
            && (url.Plain? ==> c.fee == 0 || (Buys(c, s) && w.purchase.NoPrice?))
  {
    hide Unrestricted, MayWatch;
  }

  /** A stream for members only is refused to somebody without a user, whatever else is in order. */
  lemma MembersOnlyRefused(c: Claim, s: Session, w: World, now: int)
    requires c.tags == ["c:members-only"] && !c.mine && !s.user
    ensures Served(c, s, w, now) == Fails
  {
    TagKinds("c:members-only", c.release, now);
    AccessRules(s, now);
    assert c.tags[0] == "c:members-only" && TagAccess(c.tags[0], c.release, now) == MembersOnly;
    assert forall k :: Decides(c, now, k) ==> k == 0;
  }

  /** An anonymous caller who would have to buy gets nothing. */
  lemma AnonymousCannotBuy(c: Claim, s: Session, w: World, now: int)
    requires Unrestricted(c, now) && MustBuy(c, s) && s.walletID == ""
    ensures Served(c, s, w, now) == Fails && !Buys(c, s)
  {
    hide Unrestricted, MayWatch;
  }

  /** A paid URL carries an empty reference exactly if the receipt it is made from has an empty
      transaction id: the one resolved first, or the one resolved after buying. */
  lemma EmptyReference(c: Claim, s: Session, w: World, now: int)
    requires Served(c, s, w, now).Serves? && Served(c, s, w, now).url.Paid?
    ensures Served(c, s, w, now).url.reference == "" <==>
              !c.mine && (c.receipt == Some("")
                          || (Buys(c, s) && w.purchase.Made? && w.again.Some? && w.again.value.receipt == Some("")))
  {
    hide Unrestricted, MayWatch;
  }

  /** A claim for which it does. */
  lemma EmptyReferenceServed(s: Session, w: World, now: int)
    requires w.makesToken && !HasArfleet(w)
    ensures Served(Claim([], 0, false, 1, Some(""), true), s, w, now) == Serves(Paid(""))
  {
  }
}
