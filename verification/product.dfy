/** The product-lookup flow: the product record and the lookup service's
    response it is built from, the flow's state machine, and the feedback
    that turns a `loading(code)` state into a lookup and its outcome into an
    event. Swift's `Error` is the opaque type parameter `X`. */
module ProductFlow {
  import opened Wrappers
  import Engine

  /** A UUID; only its identity matters here. */
  datatype Uuid = Uuid(bytes: seq<bv8>)

  /** A URL, kept as its absolute string. */
  datatype Url = Url(absolute: string)

  /** The lookup service's response body; every field except `id` may be absent. */
  datatype ProductDto = ProductDto(
    id: Uuid,
    description: Option<string>,
    brand: Option<string>,
    ingredients: Option<string>,
    image: Option<Url>,
    upcCode: Option<string>,
    returnMessage: Option<string>,
    returnCode: Option<string>)

  /** The product shown to the user once a lookup succeeds. */
  datatype Product = Product(
    id: Uuid,
    description: Option<string>,
    brand: Option<string>,
    ingredients: Option<string>,
    image: Option<Url>,
    upcCode: Option<string>,
    returnMessage: Option<string>,
    returnCode: Option<string>)

  /** `Product.init(product:)`: the product carries every field of the response unchanged. */
  function FromDto(d: ProductDto): (p: Product)
    ensures p.id == d.id
    ensures p.description == d.description
    ensures p.brand == d.brand
    ensures p.ingredients == d.ingredients
    ensures p.image == d.image
    ensures p.upcCode == d.upcCode
    ensures p.returnMessage == d.returnMessage
    ensures p.returnCode == d.returnCode
  {
    Product(d.id, d.description, d.brand, d.ingredients, d.image,
            d.upcCode, d.returnMessage, d.returnCode)
  }

  /** Building the product loses nothing: two responses give the same product
      exactly when they are the same response. */
  lemma FromDtoLossless(a: ProductDto, b: ProductDto)
    ensures FromDto(a) == FromDto(b) <==> a == b
  {
  }

  datatype State<X> =
    | Idle
    | Scanning
    | Loading(code: string)
    | Loaded(product: Product)
    | Error(error: X)

  datatype Event<X> =
    | OnAppear
    | OnGotBarcode(code: string)
    | OnLoaded(product: Product)
    | OnAPIError(error: X)
    | OnStoreToHistory(product: Product)

  /** The reducer: one nested switch, first on the state, then on the event;
      every pair it does not list returns the state unchanged. Building the
      `loaded` state cannot throw, so the `catch` branch of the source is dead
      and absent here. */
  function Reduce<X>(s: State<X>, e: Event<X>): (r: State<X>)
    // `error` is terminal
    ensures s.Error? ==> r == s
    // no branch handles `onLoaded`
    ensures e.OnLoaded? ==> r == s
    // `idle` is never re-entered, and `scanning` is entered only from `idle`
    ensures r.Idle? ==> s.Idle?
    ensures r.Scanning? ==> s.Idle? || s.Scanning?
    // a lookup starts only from `scanning` or `loaded`, for the scanned code
    ensures r.Loading? && r != s ==> (s.Scanning? || s.Loaded?) && e == OnGotBarcode(r.code)
    // a lookup ends only from `loading`, with the product or the error the event carries
    ensures r.Loaded? && r != s ==> s.Loading? && e == OnStoreToHistory(r.product)
    ensures r.Error? && r != s ==> s.Loading? && e == OnAPIError(r.error)
  {
    match s
    case Idle =>
      (match e
       case OnAppear => Scanning
       case _ => s)
    case Scanning =>
      (match e
       case OnGotBarcode(code) => Loading(code)
       case _ => s)
    case Loading(_) =>
      (match e
       case OnStoreToHistory(product) => Loaded(product)
       case OnAPIError(error) => Error(error)
       case _ => s)
    case Loaded(_) =>
      (match e
       case OnGotBarcode(code) => Loading(code)
       case _ => s)
    case Error(_) => s
  }

  /** The transition table of the product flow, one disjunct per row. */
  ghost predicate Step<X>(s: State<X>, e: Event<X>, t: State<X>) {
    || (s == Idle && e == OnAppear && t == Scanning)
    || (s == Scanning && e.OnGotBarcode? && t == Loading(e.code))
    || (s.Loading? && e.OnStoreToHistory? && t == Loaded(e.product))
    || (s.Loading? && e.OnAPIError? && t == Error(e.error))
    || (s.Loaded? && e.OnGotBarcode? && t == Loading(e.code))
  }

  /** The pair (`s`, `e`) is a row of the table. */
  ghost predicate Listed<X(!new)>(s: State<X>, e: Event<X>) {
    exists t :: Step(s, e, t)
  }

  /** The reducer implements the table exactly: a listed pair moves to the one
      state its row names, and an unlisted pair is a no-op. In particular a
      result arriving in `loading(c)` is accepted whatever code it was looked
      up for. */
  lemma ReduceFollowsTable<X(!new)>(s: State<X>, e: Event<X>)
    ensures forall t :: Step(s, e, t) <==> Listed(s, e) && t == Reduce(s, e)
    ensures !Listed(s, e) ==> Reduce(s, e) == s
  {
    if !Listed(s, e) {
      assert !Step(s, e, Reduce(s, e));
    }
  }

  /** The guard of the `findProduct` feedback: it is active exactly in
      `loading(code)`, and then looks up that code. */
  function LookupGuard<X>(s: State<X>): (code: Option<string>)
    ensures code.Some? <==> s.Loading?
    ensures code.Some? ==> code.value == s.code
  {
    match s
    case Loading(code) => Some(code)
    case _ => None
  }

  /** The `findProduct` feedback for one state: outside `loading` it emits
      nothing; in `loading(code)` it asks `lookup` (the product service) about
      `code` and emits exactly one event carrying the outcome. */
  function FindProduct<X>(s: State<X>, lookup: string -> Result<ProductDto, X>): (events: seq<Event<X>>)
    ensures |events| <= 1
    ensures events == [] <==> LookupGuard(s).None?
  {
    match LookupGuard(s)
    case None => []
    case Some(code) =>
      match lookup(code)
      case Success(dto) => [OnStoreToHistory(FromDto(dto))]
      case Failure(error) => [OnAPIError(error)]
  }

  /** The feedback's event, reduced against the state it was derived from,
      settles the lookup: `loaded` with the product built from the response,
      or `error` with the service's error. */
  lemma LookupSettles<X>(s: State<X>, lookup: string -> Result<ProductDto, X>)
    requires s.Loading?
    ensures Engine.Run(Reduce, s, FindProduct(s, lookup)) ==
      match lookup(s.code)
      case Success(dto) => Loaded(FromDto(dto))
      case Failure(error) => Error(error)
  {
  }

  /** `error(e)` absorbs every sequence of events. */
  lemma {:induction false} ErrorAbsorbs<X>(x: X, events: seq<Event<X>>)
    ensures Engine.Run(Reduce, Error(x), events) == Error(x)
  {
    Engine.RunFixpoint(Reduce, Error(x), events);
  }

  /** The flow stays `idle` exactly until the screen appears. */
  lemma {:induction false} IdleUntilAppear<X>(events: seq<Event<X>>)
    ensures Engine.Run(Reduce, Idle, events) == Idle <==> OnAppear !in events
    decreases |events|
  {
    if events != [] {
      assert events == [events[0]] + events[1..];
      if events[0] == OnAppear {
        var inv := (t: State<X>) => !t.Idle?;
        Engine.RunPreserves(Reduce, inv, Scanning, events[1..]);
      } else {
        IdleUntilAppear(events[1..]);
      }
    }
  }

  /** A run that ends looking up `code` either started there or was handed
      that barcode. */
  lemma {:induction false} LoadingCodeProvenance<X>(s: State<X>, events: seq<Event<X>>, code: string)
    ensures Engine.Run(Reduce, s, events) == Loading(code) ==>
      s == Loading(code) || OnGotBarcode(code) in events
    decreases |events|
  {
    if events != [] {
      assert events == [events[0]] + events[1..];
      LoadingCodeProvenance(Reduce(s, events[0]), events[1..], code);
    }
  }

  /** A run that ends showing product `p` either started there or received
      `p` as a lookup result; an `onLoaded` event never puts it there. */
  lemma {:induction false} LoadedProductProvenance<X>(s: State<X>, events: seq<Event<X>>, p: Product)
    ensures Engine.Run(Reduce, s, events) == Loaded(p) ==>
      s == Loaded(p) || OnStoreToHistory(p) in events
    decreases |events|
  {
    if events != [] {
      assert events == [events[0]] + events[1..];
      LoadedProductProvenance(Reduce(s, events[0]), events[1..], p);
    }
  }

  /** The events of a sequence other than `onLoaded`, in order. */
  function WithoutOnLoaded<X>(events: seq<Event<X>>): (kept: seq<Event<X>>)
    ensures |kept| <= |events|
    ensures forall i :: 0 <= i < |kept| ==> !kept[i].OnLoaded? && kept[i] in events
    ensures forall i :: 0 <= i < |events| && !events[i].OnLoaded? ==> events[i] in kept
    decreases |events|
  {
    if events == [] then []
    else if events[0].OnLoaded? then WithoutOnLoaded(events[1..])
    else [events[0]] + WithoutOnLoaded(events[1..])
  }

  /** `onLoaded` is dead: dropping every such event from any sequence leaves
      the outcome unchanged. */
  lemma {:induction false} OnLoadedIgnored<X>(s: State<X>, events: seq<Event<X>>)
    ensures Engine.Run(Reduce, s, events) == Engine.Run(Reduce, s, WithoutOnLoaded(events))
    decreases |events|
  {
    if events != [] {
      OnLoadedIgnored(Reduce(s, events[0]), events[1..]);
      if !events[0].OnLoaded? {
        var rest := WithoutOnLoaded(events[1..]);
        assert ([events[0]] + rest)[1..] == rest;
      }
    }
  }

  /** Scan-to-product: the screen appears, a barcode is scanned, and the
      lookup feedback's answer for it ends the flow in `loaded` or `error`. */
  lemma ScanScenario<X>(code: string, lookup: string -> Result<ProductDto, X>)
    ensures Engine.Trace(Reduce, Idle, [OnAppear, OnGotBarcode(code)]) == [Idle, Scanning, State<X>.Loading(code)]
    ensures var s := Engine.Run(Reduce, Idle, [OnAppear, OnGotBarcode(code)]);
      s == Loading(code) &&
      Engine.Run(Reduce, s, FindProduct(s, lookup)) ==
        match lookup(code)
        case Success(dto) => Loaded(FromDto(dto))
        case Failure(error) => Error(error)
    ensures Engine.Run(Reduce, Idle, [OnAppear, OnGotBarcode(code)] + FindProduct(Loading(code), lookup)) ==
        match lookup(code)
        case Success(dto) => Loaded(FromDto(dto))
        case Failure(error) => Error(error)
  {
  }

  /** Failure path: a lookup error ends the flow in `error`, and a later scan
      changes nothing. */
  lemma LookupFailureIsFinal<X>(code: string, again: string, x: X, lookup: string -> Result<ProductDto, X>)
    requires lookup(code) == Failure(x)
    ensures var s := Engine.Run(Reduce, Idle, [OnAppear, OnGotBarcode(code)]);
      var t := Engine.Run(Reduce, s, FindProduct(s, lookup));
      t == Error(x) && Reduce(t, OnGotBarcode(again)) == t
  {
    ScanScenario(code, lookup);
  }
}
