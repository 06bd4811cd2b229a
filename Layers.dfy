/** The protocol layer chain: stages linked downwards by strong links and upwards by
    weak links, and the dispatch rule that routes each handler's result to a
    neighbour. Layers live in an arena (a sequence) and links are arena indices; a
    weak link is dead when its index names no layer of the arena. */
module Layers {
  import opened Wrappers

  /** Key/value context travelling with a payload. */
  type ChainContext = map<string, string>

  datatype PayLoad = PayLoad(data: Option<string>, ctx: Option<ChainContext>)

  /** Which neighbour a result is routed to next: Inbound goes up, Outbound goes down. */
  datatype Direction = Inbound | Outbound

  datatype LayerResult = LayerResult(direction: Direction, data: Option<PayLoad>)

  /** A user handler: one stage's inbound or outbound processing step. */
  type Handler = Option<PayLoad> -> Result<LayerResult, string>

  /** Position of a layer in the arena. */
  type LayerId = nat

  /** One stage: its two handlers, the strong link to the layer below and the weak
      link to the layer above. */
  datatype Layer = Layer(handleInbound: Handler, handleOutbound: Handler,
                         lo: Option<LayerId>, up: Option<LayerId>)

  const InboundFailed: string := "failed to handle inbound request"
  const OutboundFailed: string := "failed to handle outbound request"
  const NoLayers: string := "No layers in the chain"
  const InboundNotSet: string := "inbound handler not set"
  const OutboundNotSet: string := "outbound handler not set"

  /** Strong links always name a layer that exists. */
  ghost predicate WellLinked(arena: seq<Layer>)
  {
    forall i :: 0 <= i < |arena| && arena[i].lo.Some? ==> arena[i].lo.value < |arena|
  }

  /** What a dispatch comes to: a result, or the step bound ran out first. */
  datatype Outcome = Finished(result: Result<LayerResult, string>) | OutOfFuel

  /** The error messages a dispatch can finish with. */
  ghost predicate DispatchError(o: Outcome)
  {
    o.Finished? && o.result.Failure? ==> o.result.error == InboundFailed || o.result.error == OutboundFailed
  }

  // ---------------------------------------------------------------------------
  // Dispatch (Layer::handle_inbound / Layer::handle_outbound). `fuel` bounds the
  // number of handler invocations; the source recursion has no such bound.
  // ---------------------------------------------------------------------------

  /** Layer::handle_inbound for the layer at `at`. */
  function LayerInbound(arena: seq<Layer>, at: LayerId, req: Option<PayLoad>, fuel: nat): (o: Outcome)
    requires WellLinked(arena) && at < |arena|
    ensures DispatchError(o)
    decreases fuel, 0
  {
    if fuel == 0 then OutOfFuel
    else match arena[at].handleInbound(req)
      case Failure(_) => Finished(Failure(InboundFailed))
      case Success(res) => Route(arena, at, res, fuel - 1)
  }

  /** Layer::handle_outbound for the layer at `at`. */
  function LayerOutbound(arena: seq<Layer>, at: LayerId, req: Option<PayLoad>, fuel: nat): (o: Outcome)
    requires WellLinked(arena) && at < |arena|
    ensures DispatchError(o)
    decreases fuel, 0
  {
    if fuel == 0 then OutOfFuel
    else match arena[at].handleOutbound(req)
      case Failure(_) => Finished(Failure(OutboundFailed))
      case Success(res) => Route(arena, at, res, fuel - 1)
  }

  /** The routing rule shared by both directions: continue at the neighbour the
      result's direction names, or stop with the result at the chain's boundary. */
  function Route(arena: seq<Layer>, at: LayerId, res: LayerResult, fuel: nat): (o: Outcome)
    requires WellLinked(arena) && at < |arena|
    ensures DispatchError(o)
    decreases fuel, 1
  {
    match res.direction
    case Inbound =>
      (match arena[at].up
       case None => Finished(Success(res))
       case Some(u) =>
         if u < |arena| then LayerInbound(arena, u, res.data, fuel)
         else Finished(Failure(InboundFailed)))
    case Outbound =>
      (match arena[at].lo
       case None => Finished(Success(res))
       case Some(l) => LayerOutbound(arena, l, res.data, fuel))
  }

  /** The routing rule, case by case: an Inbound result continues at the live
      upper layer's inbound dispatch and fails with the inbound message on a dead
      upper link; an Outbound result continues at the lower layer's outbound
      dispatch; at the chain's boundary the result itself is the answer. Whatever
      the neighbour answers, errors included, is the answer unchanged. */
  lemma RoutingRule(arena: seq<Layer>, at: LayerId, res: LayerResult, fuel: nat)
    requires WellLinked(arena) && at < |arena|
    ensures var up := arena[at].up;
      res.direction == Inbound ==>
        Route(arena, at, res, fuel) ==
          if up == None then Finished(Success(res))
          else if up.value < |arena| then LayerInbound(arena, up.value, res.data, fuel)
          else Finished(Failure(InboundFailed))
    ensures var lo := arena[at].lo;
      res.direction == Outbound ==>
        Route(arena, at, res, fuel) ==
          if lo == None then Finished(Success(res))
          else LayerOutbound(arena, lo.value, res.data, fuel)
  {
  }

  /** A handler's own error message never surfaces: it becomes the fixed message of
      the direction the handler serves. */
  lemma HandlerErrorReplaced(arena: seq<Layer>, at: LayerId, req: Option<PayLoad>, fuel: nat)
    requires WellLinked(arena) && at < |arena| && fuel > 0
    ensures arena[at].handleInbound(req).Failure? ==>
              LayerInbound(arena, at, req, fuel) == Finished(Failure(InboundFailed))
    ensures arena[at].handleOutbound(req).Failure? ==>
              LayerOutbound(arena, at, req, fuel) == Finished(Failure(OutboundFailed))
  {
  }

  /** An Inbound result whose weak upper link is dead fails with the inbound
      message, whichever handler produced it. */
  lemma DeadUpperLink(arena: seq<Layer>, at: LayerId, req: Option<PayLoad>, fuel: nat)
    requires WellLinked(arena) && at < |arena| && fuel > 0
    requires arena[at].up.Some? && arena[at].up.value >= |arena|
    ensures (var h := arena[at].handleInbound(req);
             h.Success? && h.value.direction == Inbound ==>
               LayerInbound(arena, at, req, fuel) == Finished(Failure(InboundFailed)))
    ensures (var h := arena[at].handleOutbound(req);
             h.Success? && h.value.direction == Inbound ==>
               LayerOutbound(arena, at, req, fuel) == Finished(Failure(InboundFailed)))
  {
  }

  /** More fuel never changes a dispatch that already finished: the bound only
      cuts off runs, it never alters their results. */
  lemma {:induction false} InboundFuelMonotone(arena: seq<Layer>, at: LayerId, req: Option<PayLoad>, fuel: nat, more: nat)
    requires WellLinked(arena) && at < |arena| && fuel <= more
    requires LayerInbound(arena, at, req, fuel).Finished?
    ensures LayerInbound(arena, at, req, more) == LayerInbound(arena, at, req, fuel)
    decreases fuel, 0
  {
    match arena[at].handleInbound(req)
    case Failure(_) =>
    case Success(res) => RouteFuelMonotone(arena, at, res, fuel - 1, more - 1);
  }

  lemma {:induction false} OutboundFuelMonotone(arena: seq<Layer>, at: LayerId, req: Option<PayLoad>, fuel: nat, more: nat)
    requires WellLinked(arena) && at < |arena| && fuel <= more
    requires LayerOutbound(arena, at, req, fuel).Finished?
    ensures LayerOutbound(arena, at, req, more) == LayerOutbound(arena, at, req, fuel)
    decreases fuel, 0
  {
    match arena[at].handleOutbound(req)
    case Failure(_) =>
    case Success(res) => RouteFuelMonotone(arena, at, res, fuel - 1, more - 1);
  }

  lemma {:induction false} RouteFuelMonotone(arena: seq<Layer>, at: LayerId, res: LayerResult, fuel: nat, more: nat)
    requires WellLinked(arena) && at < |arena| && fuel <= more
    requires Route(arena, at, res, fuel).Finished?
    ensures Route(arena, at, res, more) == Route(arena, at, res, fuel)
    decreases fuel, 1
  {
    match res.direction
    case Inbound =>
      if arena[at].up.Some? && arena[at].up.value < |arena| {
        InboundFuelMonotone(arena, arena[at].up.value, res.data, fuel, more);
      }
    case Outbound =>
      if arena[at].lo.Some? {
        OutboundFuelMonotone(arena, arena[at].lo.value, res.data, fuel, more);
      }
  }

  // ---------------------------------------------------------------------------
  // Chain assembly (LayerChain::add_layer) on the arena.
  // ---------------------------------------------------------------------------

  /** The arena after add_layer(layer): the first layer has both links cleared;
      otherwise the old tail's weak upper link names the new layer and the new
      layer's strong lower link names the old tail. */
  function Link(arena: seq<Layer>, layer: Layer): (a: seq<Layer>)
    ensures var n := |arena|;
      && |a| == n + 1
      && a[n].handleInbound == layer.handleInbound
      && a[n].handleOutbound == layer.handleOutbound
      && a[n].lo == (if n == 0 then None else Some(n - 1))
      && a[n].up == (if n == 0 then None else layer.up)
      && (n > 0 ==> a[n - 1] == arena[n - 1].(up := Some(n)))
      && (forall i :: 0 <= i < n - 1 ==> a[i] == arena[i])
    ensures WellLinked(arena) ==> WellLinked(a)
  {
    if |arena| == 0 then [layer.(lo := None, up := None)]
    else
      var t := |arena| - 1;
      arena[t := arena[t].(up := Some(|arena|))] + [layer.(lo := Some(t))]
  }

  /** The arena of a chain that was handed `ls`, in this order, starting empty. */
  function Assemble(ls: seq<Layer>): (arena: seq<Layer>)
    decreases |ls|
  {
    if ls == [] then [] else Link(Assemble(ls[..|ls| - 1]), ls[|ls| - 1])
  }

  /** Chain shape of an assembled arena: layer i keeps the handlers it was added
      with, its lower link names i - 1, and its upper link names i + 1 (the tail's
      upper link is cleared for a lone layer and otherwise left as it came). */
  lemma {:induction false} AssembleLinks(ls: seq<Layer>)
    ensures |Assemble(ls)| == |ls|
    ensures forall i :: 0 <= i < |ls| ==>
      && Assemble(ls)[i].handleInbound == ls[i].handleInbound
      && Assemble(ls)[i].handleOutbound == ls[i].handleOutbound
      && Assemble(ls)[i].lo == (if i == 0 then None else Some(i - 1))
      && Assemble(ls)[i].up == (if i + 1 < |ls| then Some(i + 1) else if i == 0 then None else ls[i].up)
    decreases |ls|
  {
    if ls != [] {
      var init := ls[..|ls| - 1];
      AssembleLinks(init);
    }
  }

  /** The exact shape of a chain of n layers: lower links step down by one and end
      at the head, upper links step up by one and end at the tail. */
  ghost predicate Shaped(arena: seq<Layer>)
  {
    && WellLinked(arena)
    && forall i :: 0 <= i < |arena| ==>
         && arena[i].lo == (if i == 0 then None else Some(i - 1))
         && arena[i].up == (if i + 1 == |arena| then None else Some(i + 1))
  }

  /** Layers as LayerBuilder::build returns them have no upper link; handing such
      layers to a chain gives it the exact shape, so every upper link is live and
      the dead-link error cannot arise. */
  lemma AssembleShaped(ls: seq<Layer>)
    requires forall i :: 0 <= i < |ls| ==> ls[i].up == None
    ensures Shaped(Assemble(ls)) && |Assemble(ls)| == |ls|
    ensures forall i :: 0 <= i < |ls| && Assemble(ls)[i].up.Some? ==> Assemble(ls)[i].up.value < |ls|
  {
    AssembleLinks(ls);
  }

  // ---------------------------------------------------------------------------
  // Dispatch through a whole chain whose handlers keep their direction.
  // ---------------------------------------------------------------------------

  /** A handler that, when it succeeds, always routes up. */
  ghost predicate RoutesUp(h: Handler)
  {
    forall p :: h(p).Success? ==> h(p).value.direction == Inbound
  }

  /** A handler that, when it succeeds, always routes down. */
  ghost predicate RoutesDown(h: Handler)
  {
    forall p :: h(p).Success? ==> h(p).value.direction == Outbound
  }

  /** Reference result of running the inbound handlers from `at` up to the last
      layer in order, each fed the previous one's data. */
  function Ascend(arena: seq<Layer>, at: LayerId, req: Option<PayLoad>): Result<LayerResult, string>
    requires at < |arena|
    decreases |arena| - at
  {
    match arena[at].handleInbound(req)
    case Failure(_) => Failure(InboundFailed)
    case Success(res) => if at + 1 == |arena| then Success(res) else Ascend(arena, at + 1, res.data)
  }

  /** Reference result of running the outbound handlers from `at` down to the
      first layer in order, each fed the previous one's data. */
  function Descend(arena: seq<Layer>, at: LayerId, req: Option<PayLoad>): Result<LayerResult, string>
    requires at < |arena|
    decreases at
  {
    match arena[at].handleOutbound(req)
    case Failure(_) => Failure(OutboundFailed)
    case Success(res) => if at == 0 then Success(res) else Descend(arena, at - 1, res.data)
  }

  /** With upward-routing inbound handlers, inbound dispatch from `at` visits the
      layers above it in order and finishes with the last one's result, within as
      many hops as there are layers from `at` to the tail. */
  lemma {:induction false} InboundAscends(arena: seq<Layer>, at: LayerId, req: Option<PayLoad>, fuel: nat)
    requires Shaped(arena) && at < |arena|
    requires forall i :: 0 <= i < |arena| ==> RoutesUp(arena[i].handleInbound)
    requires fuel >= |arena| - at
    ensures LayerInbound(arena, at, req, fuel) == Finished(Ascend(arena, at, req))
    decreases |arena| - at
  {
    assert RoutesUp(arena[at].handleInbound);
    match arena[at].handleInbound(req)
    case Failure(_) =>
    case Success(res) =>
      if at + 1 < |arena| {
        InboundAscends(arena, at + 1, res.data, fuel - 1);
      }
  }

  /** With downward-routing outbound handlers, outbound dispatch from `at` visits
      the layers below it in order and finishes with the first layer's result,
      within at + 1 hops. */
  lemma {:induction false} OutboundDescends(arena: seq<Layer>, at: LayerId, req: Option<PayLoad>, fuel: nat)
    requires Shaped(arena) && at < |arena|
    requires forall i :: 0 <= i < |arena| ==> RoutesDown(arena[i].handleOutbound)
    requires fuel > at
    ensures LayerOutbound(arena, at, req, fuel) == Finished(Descend(arena, at, req))
    decreases at
  {
    assert RoutesDown(arena[at].handleOutbound);
    match arena[at].handleOutbound(req)
    case Failure(_) =>
    case Success(res) =>
      if at > 0 {
        OutboundDescends(arena, at - 1, res.data, fuel - 1);
      }
  }

  /** The hop bound is tight: when every inbound handler succeeds upwards, fewer
      hops than layers from `at` to the tail never finish. */
  lemma {:induction false} InboundNeedsEveryHop(arena: seq<Layer>, at: LayerId, req: Option<PayLoad>, fuel: nat)
    requires Shaped(arena) && at < |arena|
    requires forall i, p :: 0 <= i < |arena| ==>
      arena[i].handleInbound(p).Success? && arena[i].handleInbound(p).value.direction == Inbound
    requires fuel < |arena| - at
    ensures LayerInbound(arena, at, req, fuel) == OutOfFuel
    decreases fuel
  {
    if fuel > 0 {
      var res := arena[at].handleInbound(req).value;
      InboundNeedsEveryHop(arena, at + 1, res.data, fuel - 1);
    }
  }

  // ---------------------------------------------------------------------------
  // Routing need not terminate.
  // ---------------------------------------------------------------------------

  /** A handler that passes its payload on unchanged in direction `d`. */
  function Echo(d: Direction): Handler
  {
    (p: Option<PayLoad>) => Success(LayerResult(d, p))
  }

  /** Two layers that bounce a request between them for ever: the lower layer's
      outbound handler sends it up, the upper layer's inbound handler sends it down. */
  function PingPong(): seq<Layer>
  {
    Assemble([Layer(Echo(Inbound), Echo(Inbound), None, None),
              Layer(Echo(Outbound), Echo(Outbound), None, None)])
  }

  /** No amount of fuel finishes an inbound request on the ping-pong chain: the
      unbounded recursion of the source would not return. */
  lemma {:induction false} PingPongNeverFinishes(req: Option<PayLoad>, fuel: nat)
    ensures Shaped(PingPong())
    ensures LayerInbound(PingPong(), 0, req, fuel) == OutOfFuel
  {
    var a := PingPong();
    AssembleLinks([Layer(Echo(Inbound), Echo(Inbound), None, None),
                   Layer(Echo(Outbound), Echo(Outbound), None, None)]);
    if fuel > 0 {
      Bounce(req, fuel - 1);
    }
  }

  lemma {:induction false} Bounce(req: Option<PayLoad>, fuel: nat)
    ensures Shaped(PingPong())
    ensures LayerInbound(PingPong(), 1, req, fuel) == OutOfFuel
    ensures LayerOutbound(PingPong(), 0, req, fuel) == OutOfFuel
    decreases fuel
  {
    AssembleLinks([Layer(Echo(Inbound), Echo(Inbound), None, None),
                   Layer(Echo(Outbound), Echo(Outbound), None, None)]);
    if fuel > 0 {
      Bounce(req, fuel - 1);
    }
  }

  // ---------------------------------------------------------------------------
  // LayerBuilder and LayerChain.
  // ---------------------------------------------------------------------------

  /** Collects the two handlers of a layer before building it. */
  class LayerBuilder {
    var inbound: Option<Handler>
    var outbound: Option<Handler>

    constructor ()
      ensures inbound == None && outbound == None
    {
      inbound := None;
      outbound := None;
    }

    method WithInboundFn(h: Handler)
      modifies this
      ensures inbound == Some(h) && outbound == old(outbound)
    {
      inbound := Some(h);
    }

    method WithOutboundFn(h: Handler)
      modifies this
      ensures outbound == Some(h) && inbound == old(inbound)
    {
      outbound := Some(h);
    }

    /** A layer with both handlers and no links; the missing inbound handler is
        reported first. */
    method Build() returns (r: Result<Layer, string>)
      ensures inbound == None ==> r == Failure(InboundNotSet)
      ensures inbound.Some? && outbound == None ==> r == Failure(OutboundNotSet)
      ensures r.Success? <==> inbound.Some? && outbound.Some?
      ensures r.Success? ==>
        && r.value.handleInbound == inbound.value
        && r.value.handleOutbound == outbound.value
        && r.value.lo == None && r.value.up == None
    {
      if inbound == None {
        return Failure(InboundNotSet);
      }
      if outbound == None {
        return Failure(OutboundNotSet);
      }
      r := Success(Layer(inbound.value, outbound.value, None, None));
    }
  }

  /** The chain: an arena of layers with the head (first added) and the tail (last
      added). `added` records the layers in the order they were handed over. */
  class LayerChain {
    var layers: seq<Layer>
    var head: Option<LayerId>
    var tail: Option<LayerId>
    ghost var added: seq<Layer>

    ghost predicate Valid()
      reads this
    {
      && layers == Assemble(added)
      && |layers| == |added|
      && WellLinked(layers)
      && head == (if layers == [] then None else Some(0))
      && tail == (if layers == [] then None else Some(|layers| - 1))
    }

    constructor ()
      ensures Valid() && added == [] && layers == []
      ensures head == None && tail == None
    {
      layers, head, tail := [], None, None;
      added := [];
    }

    /** LayerChain::add_layer. */
    method AddLayer(layer: Layer)
      requires Valid()
      modifies this
      ensures Valid()
      ensures added == old(added) + [layer]
      ensures layers == Link(old(layers), layer)
      ensures head == (if old(head) == None then Some(0) else old(head))
      ensures tail == Some(|old(layers)|)
    {
      match tail {
        case Some(t) =>
          layers := layers[t := layers[t].(up := Some(|layers|))];
          layers := layers + [layer.(lo := Some(t))];
          tail := Some(|layers| - 1);
        case None =>
          layers := layers + [layer.(lo := None, up := None)];
          head := Some(0);
          tail := Some(0);
      }
      assert (added + [layer])[..|added|] == added;
      added := added + [layer];
    }

    /** LayerChain::head: the first layer added, if any. */
    function Head(): (h: Option<LayerId>)
      reads this
      requires Valid()
      ensures h.Some? <==> |added| > 0
      ensures h.Some? ==> (
        && h.value < |layers|
        && layers[h.value].handleInbound == added[0].handleInbound
        && layers[h.value].handleOutbound == added[0].handleOutbound
        && layers[h.value].lo == None)
    {
      AssembleLinks(added);
      head
    }

    /** LayerChain::tail: the last layer added, if any. */
    function Tail(): (t: Option<LayerId>)
      reads this
      requires Valid()
      ensures t.Some? <==> |added| > 0
      ensures t.Some? ==> (
        && t.value < |layers|
        && layers[t.value].handleInbound == added[|added| - 1].handleInbound
        && layers[t.value].handleOutbound == added[|added| - 1].handleOutbound
        && (|added| > 1 ==> layers[t.value].lo == Some(t.value - 1)))
    {
      AssembleLinks(added);
      tail
    }

    /** LayerChain::handle_inbound: an empty chain is an error; otherwise dispatch
        enters at the head. */
    function HandleInbound(req: Option<PayLoad>, fuel: nat): (o: Outcome)
      reads this
      requires Valid()
      ensures layers == [] ==> o == Finished(Failure(NoLayers))
      ensures layers != [] ==> o == LayerInbound(layers, 0, req, fuel)
    {
      match head
      case None => Finished(Failure(NoLayers))
      case Some(h) => LayerInbound(layers, h, req, fuel)
    }

    /** LayerChain::handle_outbound: an empty chain is an error; otherwise dispatch
        enters at the tail. */
    function HandleOutbound(req: Option<PayLoad>, fuel: nat): (o: Outcome)
      reads this
      requires Valid()
      ensures layers == [] ==> o == Finished(Failure(NoLayers))
      ensures layers != [] ==> o == LayerOutbound(layers, |layers| - 1, req, fuel)
    {
      match tail
      case None => Finished(Failure(NoLayers))
      case Some(t) => LayerOutbound(layers, t, req, fuel)
    }
  }

  /** A chain of built layers whose handlers keep their direction answers an
      inbound request with the head-to-tail run of the inbound handlers, and an
      outbound request with the tail-to-head run of the outbound handlers, both
      within as many hops as there are layers. */
  lemma ChainDispatchKeepsDirection(c: LayerChain, req: Option<PayLoad>, fuel: nat)
    requires c.Valid() && |c.added| > 0 && fuel >= |c.added|
    requires forall i :: 0 <= i < |c.added| ==> c.added[i].up == None
    requires forall i :: 0 <= i < |c.added| ==> RoutesUp(c.added[i].handleInbound)
    requires forall i :: 0 <= i < |c.added| ==> RoutesDown(c.added[i].handleOutbound)
    ensures c.HandleInbound(req, fuel) == Finished(Ascend(c.layers, 0, req))
    ensures c.HandleOutbound(req, fuel) == Finished(Descend(c.layers, |c.layers| - 1, req))
  {
    AssembleLinks(c.added);
    AssembleShaped(c.added);
    InboundAscends(c.layers, 0, req, fuel);
    OutboundDescends(c.layers, |c.layers| - 1, req, fuel);
  }

  /** The two-layer chain of the builder test: L0 is added first and L1 second.
      L0 becomes head and tail, then L1 becomes tail; the chain has the exact
      shape and keeps each layer's handlers. */
  method TwoLayerChain(l0: Layer, l1: Layer) returns (c: LayerChain)
    requires l0.up == None && l1.up == None
    ensures fresh(c) && c.Valid() && c.added == [l0, l1]
    ensures c.head == Some(0) && c.tail == Some(1)
    ensures Shaped(c.layers) && |c.layers| == 2
    ensures c.layers[0].handleInbound == l0.handleInbound && c.layers[0].handleOutbound == l0.handleOutbound
    ensures c.layers[1].handleInbound == l1.handleInbound && c.layers[1].handleOutbound == l1.handleOutbound
  {
    c := new LayerChain();
    c.AddLayer(l0);
    c.AddLayer(l1);
    AssembleLinks([l0, l1]);
    AssembleShaped([l0, l1]);
  }

  /** Multi-hop redirection on two layers: the head's inbound handler routes up,
      the tail's inbound handler routes down, and the head's outbound handler has
      the last word, so the chain answers with the head's outbound result and not
      with the tail's. */
  lemma TwoLayerRedirect(l0: Layer, l1: Layer, req: Option<PayLoad>, d1: Option<PayLoad>,
                         d2: Option<PayLoad>, last: LayerResult, fuel: nat)
    requires l0.up == None && l1.up == None && fuel >= 3
    requires l0.handleInbound(req) == Success(LayerResult(Inbound, d1))
    requires l1.handleInbound(d1) == Success(LayerResult(Outbound, d2))
    requires l0.handleOutbound(d2) == Success(last) && last.direction == Outbound
    ensures WellLinked(Assemble([l0, l1])) && |Assemble([l0, l1])| == 2
    ensures LayerInbound(Assemble([l0, l1]), 0, req, fuel) == Finished(Success(last))
  {
    var a := Assemble([l0, l1]);
    assert [l0, l1][..1] == [l0] && [l0][..0] == [];
    assert Assemble([l0]) == Link([], l0);
    assert a == Link(Link([], l0), l1);
    assert a[0] == l0.(lo := None, up := Some(1)) && a[1] == l1.(lo := Some(0));
    assert Route(a, 0, last, fuel - 3) == Finished(Success(last));
    assert LayerOutbound(a, 0, d2, fuel - 2) == Finished(Success(last));
    assert Route(a, 1, LayerResult(Outbound, d2), fuel - 2) == Finished(Success(last));
    assert LayerInbound(a, 1, d1, fuel - 1) == Finished(Success(last));
    assert Route(a, 0, LayerResult(Inbound, d1), fuel - 1) == Finished(Success(last));
  }
}
