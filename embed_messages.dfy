/**
 * The height negotiation shared by `components/WebAppEmbed.tsx` and
 * `components/StreamlitEmbed.tsx`: the `message` listener accepts a message
 * only from the embedded app's origin, recognises one of three shapes, and
 * clamps the requested height.  Both components also build the iframe's URL
 * by appending query parameters.
 */
module EmbedMessages {
  import opened Wrappers
  import opened Storage

  /**
   * `event.data` of a message: an object with its `type` (when a string) and
   * its `height` (when an integer), a bare number, or anything else (`null`,
   * strings, booleans).
   */
  datatype Message = ObjectMsg(kind: Option<string>, height: Option<int>) | NumberMsg(value: int) | OtherMsg

  /** The three accepted shapes, each with the height it asks for. */
  datatype HeightRequest = FrameHeight(h: int) | HeightProperty(h: int) | BareNumber(h: int)

  const SetFrameHeight := "streamlit:setFrameHeight"

  /** The branches of `handleMessage` after the origin check; `None` when no branch applies. */
  function Classify(data: Message): (r: Option<HeightRequest>)
    ensures r.Some? <==>
      ((data.ObjectMsg? && data.height.Some? && data.height.value != 0) || (data.NumberMsg? && data.value > 0))
    ensures r.Some? && data.ObjectMsg? ==> r.value.h == data.height.value
    ensures r.Some? && data.NumberMsg? ==> r.value == BareNumber(data.value)
    ensures r.Some? && r.value.FrameHeight? <==> data.ObjectMsg? && data.kind == Some(SetFrameHeight) && r.Some?
  {
    match data
    case ObjectMsg(kind, height) =>
      if kind == Some(SetFrameHeight) && height.Some? && height.value != 0 then Some(FrameHeight(height.value))
      else if height.Some? && height.value != 0 then Some(HeightProperty(height.value))
      else None
    case NumberMsg(n) => if n > 0 then Some(BareNumber(n)) else None
    case OtherMsg => None
  }

  /** The heights `Clamp(lo, hi, _)` can produce. */
  predicate InRange(lo: int, hi: int, h: int)
  {
    if lo <= hi then lo <= h <= hi else h == lo
  }

  /** `Math.max(lo, Math.min(hi, h))`. */
  function Clamp(lo: int, hi: int, h: int): (r: int)
    ensures InRange(lo, hi, r)
    ensures InRange(lo, hi, h) ==> r == h
    ensures lo <= hi && h > hi ==> r == hi
    ensures h < lo ==> r == lo
  {
    if hi < h then (if lo < hi then hi else lo)
    else if lo < h then h
    else lo
  }

  /** The message is from the embedded app (`new URL(url).origin` is `appOrigin`; `None` when it throws). */
  predicate FromApp(appOrigin: Option<string>, eventOrigin: string)
  {
    appOrigin == Some(eventOrigin)
  }

  /** The iframe height after `handleMessage` with bounds `lo` and `hi`. */
  function HeightAfter(lo: int, hi: int, height: int, appOrigin: Option<string>, eventOrigin: string, data: Message): (r: int)
    ensures !FromApp(appOrigin, eventOrigin) || Classify(data).None? ==> r == height
    ensures FromApp(appOrigin, eventOrigin) && Classify(data).Some? ==> r == Clamp(lo, hi, Classify(data).value.h)
  {
    if !FromApp(appOrigin, eventOrigin) then height
    else match Classify(data)
      case Some(request) => Clamp(lo, hi, request.h)
      case None => height
  }

  /** One delivered `message` event: its sender's origin and its data. */
  datatype Delivery = Delivery(origin: string, data: Message)

  function HeightAfterAll(lo: int, hi: int, height: int, appOrigin: Option<string>, deliveries: seq<Delivery>): int
    decreases |deliveries|
  {
    if deliveries == [] then height
    else HeightAfterAll(lo, hi, HeightAfter(lo, hi, height, appOrigin, deliveries[0].origin, deliveries[0].data),
                        appOrigin, deliveries[1..])
  }

  /** Every height the listener ever sets is one `Clamp` can produce: a run ends at its start height or in range. */
  lemma {:induction false} HeightAfterAllInRange(lo: int, hi: int, height: int, appOrigin: Option<string>, deliveries: seq<Delivery>)
    ensures var r := HeightAfterAll(lo, hi, height, appOrigin, deliveries); r == height || InRange(lo, hi, r)
    decreases |deliveries|
  {
    if deliveries != [] {
      var next := HeightAfter(lo, hi, height, appOrigin, deliveries[0].origin, deliveries[0].data);
      HeightAfterAllInRange(lo, hi, next, appOrigin, deliveries[1..]);
    }
  }

  /** Messages from any other origin, or arriving when the app's URL has no origin, are all ignored. */
  lemma {:induction false} ForeignMessagesIgnored(lo: int, hi: int, height: int, appOrigin: Option<string>, deliveries: seq<Delivery>)
    requires forall i :: 0 <= i < |deliveries| ==> !FromApp(appOrigin, deliveries[i].origin)
    ensures HeightAfterAll(lo, hi, height, appOrigin, deliveries) == height
    decreases |deliveries|
  {
    if deliveries != [] {
      assert forall i :: 0 <= i < |deliveries[1..]| ==> deliveries[1..][i] == deliveries[i + 1];
      ForeignMessagesIgnored(lo, hi, height, appOrigin, deliveries[1..]);
    }
  }

  /** The rejected shapes: a bare number that is not positive, an object without a usable height, anything else. */
  lemma RejectedShapes(n: int, kind: Option<string>)
    ensures n <= 0 ==> Classify(NumberMsg(n)).None?
    ensures Classify(ObjectMsg(kind, None)).None? && Classify(ObjectMsg(kind, Some(0))).None?
    ensures Classify(OtherMsg).None?
  {
  }

  /**
   * `embedParams ? (url has "?" ? url&params : url?params) : url`: with
   * parameters, the URL is kept, followed by one separator (`&` when it
   * already has a query, `?` otherwise) and the parameters.
   */
  function EmbedUrl(url: string, params: Option<string>): (r: string)
    ensures !Truthy(params) ==> r == url
    ensures Truthy(params) ==> |r| == |url| + 1 + |params.value|
    ensures Truthy(params) ==> r[..|url|] == url && r[|url| + 1..] == params.value
    ensures Truthy(params) ==> r[|url|] == if '?' in url then '&' else '?'
    ensures Truthy(params) ==> '?' in r
  {
    if Truthy(params) then
      var r := if '?' in url then url + "&" + params.value else url + "?" + params.value;
      assert r[|url|] in r;
      r
    else url
  }

  /** Clamping with the default bounds 400 and 2000. */
  lemma DefaultClampExamples()
    ensures Clamp(400, 2000, 5000) == 2000
    ensures Clamp(400, 2000, 50) == 400
    ensures Clamp(400, 2000, 900) == 900
  {
  }
}
