/**
 * `components/WebAppEmbed.tsx`: an iframe for an externally hosted app with
 * configurable height bounds.  The component state is `height`,
 * `isLoading` and `hasError`; the iframe's `load` and `error` events and
 * the window's `message` events are the methods of `WebAppEmbed`.
 */
module WebAppEmbed {
  import opened Wrappers
  import opened EmbedMessages

  /** The component's props, with their defaults filled in. */
  datatype Props = Props(
    url: string,
    embedParams: Option<string>,
    initialHeight: int,
    minHeight: int,
    maxHeight: int,
    enableHeightAdjustment: bool)

  /** The props a caller gets by giving only `url`. */
  function DefaultProps(url: string): (p: Props)
    ensures p.url == url && p.embedParams == None && p.enableHeightAdjustment
    ensures p.initialHeight == 800 && p.minHeight == 400 && p.maxHeight == 2000
  {
    Props(url, None, 800, 400, 2000, true)
  }

  /** The NetlyAI case study's embed: fixed at 900 pixels. */
  function NetlyAiProps(): (p: Props)
    ensures p.initialHeight == 900 && !p.enableHeightAdjustment
  {
    DefaultProps("https://netly-ai-connect.lovable.app/").(initialHeight := 900, enableHeightAdjustment := false)
  }

  /** What a delivered message does to the height: nothing unless the listener is registered. */
  function HeightOnMessage(p: Props, appOrigin: Option<string>, height: int, eventOrigin: string, data: Message): int
  {
    if p.enableHeightAdjustment then HeightAfter(p.minHeight, p.maxHeight, height, appOrigin, eventOrigin, data)
    else height
  }

  /** The heights the component can show: the initial one, or one the clamp produced. */
  predicate HeightOk(p: Props, height: int)
  {
    height == p.initialHeight || InRange(p.minHeight, p.maxHeight, height)
  }

  class WebAppEmbed {
    const props: Props
    /** `new URL(props.url).origin`; `None` when the URL does not parse. */
    const appOrigin: Option<string>
    var height: int
    var isLoading: bool
    var hasError: bool

    ghost predicate Valid()
      reads this
    {
      HeightOk(props, height)
    }

    constructor (props: Props, appOrigin: Option<string>)
      ensures this.props == props && this.appOrigin == appOrigin
      ensures height == props.initialHeight && isLoading && !hasError
      ensures Valid()
    {
      this.props := props;
      this.appOrigin := appOrigin;
      height := props.initialHeight;
      isLoading := true;
      hasError := false;
    }

    /** The `src` of the iframe. */
    function Source(): string
    {
      EmbedUrl(props.url, props.embedParams)
    }

    /** `handleLoad`: a load clears an earlier error. */
    method HandleLoad()
      modifies this
      ensures !isLoading && !hasError && height == old(height)
    {
      isLoading := false;
      hasError := false;
    }

    /** `handleError`. */
    method HandleError()
      modifies this
      ensures !isLoading && hasError && height == old(height)
    {
      isLoading := false;
      hasError := true;
    }

    /** A `message` event reaching the window; `handleMessage` runs only when height adjustment is on. */
    method ReceiveMessage(eventOrigin: string, data: Message)
      requires Valid()
      modifies this
      ensures Valid()
      ensures height == HeightOnMessage(props, appOrigin, old(height), eventOrigin, data)
      ensures isLoading == old(isLoading) && hasError == old(hasError)
    {
      if !props.enableHeightAdjustment {
        return;
      }
      if appOrigin.None? || eventOrigin != appOrigin.value {
        return;
      }
      match data {
        case ObjectMsg(kind, h) =>
          if kind == Some(SetFrameHeight) && h.Some? && h.value != 0 {
            height := Clamp(props.minHeight, props.maxHeight, h.value);
          } else if h.Some? && h.value != 0 {
            height := Clamp(props.minHeight, props.maxHeight, h.value);
          }
        case NumberMsg(n) =>
          if n > 0 {
            height := Clamp(props.minHeight, props.maxHeight, n);
          }
        case OtherMsg =>
      }
    }
  }

  function HeightAfterMessages(p: Props, appOrigin: Option<string>, height: int, deliveries: seq<Delivery>): int
    decreases |deliveries|
  {
    if deliveries == [] then height
    else HeightAfterMessages(p, appOrigin,
                             HeightOnMessage(p, appOrigin, height, deliveries[0].origin, deliveries[0].data),
                             deliveries[1..])
  }

  /** Whatever messages arrive, the height stays the initial one or within the bounds. */
  lemma {:induction false} MessagesKeepHeightOk(p: Props, appOrigin: Option<string>, height: int, deliveries: seq<Delivery>)
    requires HeightOk(p, height)
    ensures HeightOk(p, HeightAfterMessages(p, appOrigin, height, deliveries))
    decreases |deliveries|
  {
    if deliveries != [] {
      MessagesKeepHeightOk(p, appOrigin,
                           HeightOnMessage(p, appOrigin, height, deliveries[0].origin, deliveries[0].data),
                           deliveries[1..]);
    }
  }

  /** With height adjustment off, no message ever changes the height. */
  lemma {:induction false} AdjustmentOffKeepsHeight(p: Props, appOrigin: Option<string>, height: int, deliveries: seq<Delivery>)
    requires !p.enableHeightAdjustment
    ensures HeightAfterMessages(p, appOrigin, height, deliveries) == height
    decreases |deliveries|
  {
    if deliveries != [] {
      AdjustmentOffKeepsHeight(p, appOrigin, height, deliveries[1..]);
    }
  }

  /** The NetlyAI embed stays at 900 pixels whatever the app posts. */
  lemma NetlyAiHeightFixed(appOrigin: Option<string>, deliveries: seq<Delivery>)
    ensures HeightAfterMessages(NetlyAiProps(), appOrigin, NetlyAiProps().initialHeight, deliveries) == 900
  {
    AdjustmentOffKeepsHeight(NetlyAiProps(), appOrigin, 900, deliveries);
  }

  /** With the default bounds, requests of 5000 and 50 pixels from the app end at 2000 and 400. */
  lemma DefaultBoundsExamples(url: string, origin: string)
    ensures HeightOnMessage(DefaultProps(url), Some(origin), 800, origin, NumberMsg(5000)) == 2000
    ensures HeightOnMessage(DefaultProps(url), Some(origin), 800, origin, ObjectMsg(Some(SetFrameHeight), Some(50))) == 400
    ensures HeightOnMessage(DefaultProps(url), Some(origin), 800, origin + "x", NumberMsg(5000)) == 800
  {
    assert |origin + "x"| != |origin|;
  }
}
