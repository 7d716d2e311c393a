/** Rewriting the thumbnail URLs of a search result to those of another CDN. */
module AssetUrls {
  import opened Text

  /** The URL an item is looked up under: a missing one reads as the empty string. */
  function UrlOf(item: Option<string>): string { if item.Some? then item.value else "" }

  method PickKey(keys: set<string>) returns (x: string)
    requires keys != {}
    ensures x in keys
  {
    x :| x in keys;
  }

  /** The positions of each URL, in order. */
  method Group(items: seq<Option<string>>) returns (positions: map<string, seq<nat>>)
    ensures forall url, k :: url in positions && 0 <= k < |positions[url]| ==>
              positions[url][k] < |items| && UrlOf(items[positions[url][k]]) == url
    ensures forall i :: 0 <= i < |items| ==> UrlOf(items[i]) in positions && i in positions[UrlOf(items[i])]
  {
    positions := map[];
    for i := 0 to |items|
      invariant forall url, k :: url in positions && 0 <= k < |positions[url]| ==>
                  positions[url][k] < i && UrlOf(items[positions[url][k]]) == url
      invariant forall j :: 0 <= j < i ==> UrlOf(items[j]) in positions && j in positions[UrlOf(items[j])]
    {
      var url := UrlOf(items[i]);
      var before := if url in positions then positions[url] else [];
      positions := positions[url := before + [i]];
    }
  }

  /** `subs` is what the resolver gives for the URLs, in no particular order; None if it fails. Each
      item gets the substitute of the URL it had at first, once, and all others stay: a substitute
      that is itself a URL of the list is not substituted again. */
  method ReplaceAssetUrls(items: seq<Option<string>>, subs: Option<map<string, string>>)
    returns (res: Option<seq<Option<string>>>)
    ensures res.Some? <==> subs.Some?
    ensures res.Some? ==> |res.value| == |items|
    ensures res.Some? ==> forall i :: 0 <= i < |items| ==>
              var url := if items[i].Some? then items[i].value else "";
              res.value[i] == if url in subs.value then Some(subs.value[url]) else items[i]
  {
    if subs.None? {
      return None;
    }
    var positions := Group(items);
    var doc := items;
    var left := subs.value.Keys;
    while left != {}
      invariant left <= subs.value.Keys && |doc| == |items|
      invariant forall i :: 0 <= i < |items| ==>
                  doc[i] == if UrlOf(items[i]) in subs.value && UrlOf(items[i]) !in left
                            then Some(subs.value[UrlOf(items[i])])
                            else items[i]
      decreases left
    {
      var from := PickKey(left);
      if from in positions {
        doc := SetAll(doc, positions[from], subs.value[from]);
      }
      left := left - {from};
    }
    res := Some(doc);
  }

  method SetAll(doc: seq<Option<string>>, positions: seq<nat>, url: string) returns (res: seq<Option<string>>)
    requires forall k :: 0 <= k < |positions| ==> positions[k] < |doc|
    ensures |res| == |doc|
    ensures forall i :: 0 <= i < |doc| ==> res[i] == if i in positions then Some(url) else doc[i]
  {
    res := doc;
    for k := 0 to |positions|
      invariant |res| == |doc|
      invariant forall i :: 0 <= i < |doc| ==> res[i] == if i in positions[..k] then Some(url) else doc[i]
    {
      assert positions[..k + 1] == positions[..k] + [positions[k]];
      res := res[positions[k] := Some(url)];
    }
    assert positions[..|positions|] == positions;
  }
}
