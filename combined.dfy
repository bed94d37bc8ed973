/**
 * The restaurant and order deciders combined into one decider over all commands and
 * all events, as the application builds it with `restaurantDecider.combine(orderDecider)`.
 *
 * The combinator itself belongs to the fmodel library and is not part of this model.
 * This module ASSUMES the behaviour that the command and event types imply: commands and
 * events are routed by their `decider` tag to exactly one of the two deciders, and the
 * combined state holds one slice per decider, of which only the routed one is read or changed.
 */
module Combined {
  import opened Wrappers
  import opened Api
  import opened StateMachine
  import opened Domain

  /** One state slice per sub-domain. */
  datatype State = State(restaurant: Option<Restaurant>, order: Option<Order>)

  function LiftRestaurantEvents(events: seq<RestaurantEvent>): (lifted: seq<Event>)
    ensures |lifted| == |events| && forall i :: 0 <= i < |events| ==> lifted[i] == RestaurantEvt(events[i])
  {
    seq(|events|, i requires 0 <= i < |events| => RestaurantEvt(events[i]))
  }

  function LiftOrderEvents(events: seq<OrderEvent>): (lifted: seq<Event>)
    ensures |lifted| == |events| && forall i :: 0 <= i < |events| ==> lifted[i] == OrderEvt(events[i])
  {
    seq(|events|, i requires 0 <= i < |events| => OrderEvt(events[i]))
  }

  /** The combined `decide`: every command yields one event, of its own sub-domain, on its own stream. */
  function Decide(command: Command, state: State): (events: seq<Event>)
    ensures |events| == 1
    ensures events[0].DeciderTag() == command.DeciderTag() && events[0].Id() == command.Id()
  {
    match command
    case RestaurantCmd(c) => LiftRestaurantEvents(RestaurantDecide(c, state.restaurant))
    case OrderCmd(c) => LiftOrderEvents(OrderDecide(c, state.order))
  }

  /** The combined `evolve`: an event changes only its own sub-domain's slice. */
  function Evolve(state: State, event: Event): (next: State)
    ensures event.RestaurantEvt? ==> next.order == state.order
    ensures event.OrderEvt? ==> next.restaurant == state.restaurant
  {
    match event
    case RestaurantEvt(e) => state.(restaurant := RestaurantEvolve(state.restaurant, e))
    case OrderEvt(e) => state.(order := OrderEvolve(state.order, e))
  }

  const decider: Decider<Command, State, Event> := Decider(Decide, Evolve, State(None, None))

  /** The restaurant events of a mixed history, in order. */
  function RestaurantEventsOf(events: seq<Event>): seq<RestaurantEvent>
  {
    if events == [] then []
    else (if events[0].RestaurantEvt? then [events[0].restaurantEvent] else []) + RestaurantEventsOf(events[1..])
  }

  /** The order events of a mixed history, in order. */
  function OrderEventsOf(events: seq<Event>): seq<OrderEvent>
  {
    if events == [] then []
    else (if events[0].OrderEvt? then [events[0].orderEvent] else []) + OrderEventsOf(events[1..])
  }

  /** Folding a mixed history through the combined decider folds each slice over its own
      sub-domain's events only: foreign events are invisible to a slice. */
  lemma {:induction false} FoldSplitsBySubdomain(init: State, events: seq<Event>)
    ensures Fold(Evolve, init, events)
         == State(Fold(RestaurantEvolve, init.restaurant, RestaurantEventsOf(events)),
                  Fold(OrderEvolve, init.order, OrderEventsOf(events)))
    decreases |events|
  {
    if events != [] {
      var next := Evolve(init, events[0]);
      FoldSplitsBySubdomain(next, events[1..]);
      match events[0]
      case RestaurantEvt(e) =>
        var rest := RestaurantEventsOf(events[1..]);
        assert RestaurantEventsOf(events) == [e] + rest;
        assert ([e] + rest)[1..] == rest;
        assert Fold(RestaurantEvolve, init.restaurant, [e] + rest)
            == Fold(RestaurantEvolve, RestaurantEvolve(init.restaurant, e), rest);
        assert OrderEventsOf(events) == [] + OrderEventsOf(events[1..]);
        assert [] + OrderEventsOf(events[1..]) == OrderEventsOf(events[1..]);
      case OrderEvt(e) =>
        var rest := OrderEventsOf(events[1..]);
        assert OrderEventsOf(events) == [e] + rest;
        assert ([e] + rest)[1..] == rest;
        assert Fold(OrderEvolve, init.order, [e] + rest)
            == Fold(OrderEvolve, OrderEvolve(init.order, e), rest);
        assert RestaurantEventsOf(events) == [] + RestaurantEventsOf(events[1..]);
        assert [] + RestaurantEventsOf(events[1..]) == RestaurantEventsOf(events[1..]);
    }
  }

  /** Deciding on a mixed history is deciding with the routed decider on its own events only. */
  lemma DecideSeesOnlyOwnEvents(history: seq<Event>, command: Command)
    ensures Decide(command, Fold(decider.evolve, decider.initialState, history))
         == match command
            case RestaurantCmd(c) => LiftRestaurantEvents(RestaurantDecide(c, RestaurantStateOf(RestaurantEventsOf(history))))
            case OrderCmd(c) => LiftOrderEvents(OrderDecide(c, OrderStateOf(OrderEventsOf(history))))
  {
    FoldSplitsBySubdomain(State(None, None), history);
  }
}
