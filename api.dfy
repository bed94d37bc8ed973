/**
 * The restaurant/order API: commands and events as tagged unions.
 * Each TypeScript variant becomes one constructor; its `kind` tag is the
 * constructor's name and its `decider` tag is fixed by the union it belongs to.
 */
module Api {

  type SchemaVersion = int
  type RestaurantId = string
  type OrderId = string
  type MenuItemId = string
  type RestaurantName = string
  type RestaurantMenuId = string
  type MenuItemName = string
  /** Prices are kept as strings; nothing computes with them. */
  type MenuItemPrice = string

  datatype OrderStatus = NotCreated | Created | Prepared

  /** The four reasons a rejection event can carry. */
  datatype Reason =
    | RestaurantAlreadyExist
    | RestaurantDoesNotExist
    | OrderAlreadyExist
    | OrderDoesNotExist

  /** The literal string each reason stands for on the wire. */
  function ReasonText(r: Reason): string
  {
    match r
    case RestaurantAlreadyExist => "Restaurant already exist!"
    case RestaurantDoesNotExist => "Restaurant does not exist!"
    case OrderAlreadyExist => "Order already exist!"
    case OrderDoesNotExist => "Order does not exist!"
  }

  /** Distinct reasons have distinct texts, so the text alone identifies the reason. */
  lemma ReasonTextInjective(a: Reason, b: Reason)
    ensures ReasonText(a) == ReasonText(b) <==> a == b
  {
  }

  datatype RestaurantMenuCuisine = General | Serbian | Italian | Mexican | Chinese | Indian | French

  datatype MenuItem = MenuItem(menuItemId: MenuItemId, name: MenuItemName, price: MenuItemPrice)

  datatype RestaurantMenu = RestaurantMenu(menuItems: seq<MenuItem>, menuId: RestaurantMenuId, cuisine: RestaurantMenuCuisine)

  // ------------------------------------------------------------------------
  // Restaurant
  // ------------------------------------------------------------------------

  datatype RestaurantCommand =
    | CreateRestaurantCommand(id: RestaurantId, name: RestaurantName, menu: RestaurantMenu)
    | ChangeRestaurantMenuCommand(id: RestaurantId, menu: RestaurantMenu)
    | PlaceOrderCommand(id: RestaurantId, orderId: OrderId, menuItems: seq<MenuItem>)
  {
    function Kind(): string
    {
      match this
      case CreateRestaurantCommand(_, _, _) => "CreateRestaurantCommand"
      case ChangeRestaurantMenuCommand(_, _) => "ChangeRestaurantMenuCommand"
      case PlaceOrderCommand(_, _, _) => "PlaceOrderCommand"
    }
  }

  datatype RestaurantEvent =
    | RestaurantCreatedEvent(version: SchemaVersion, id: RestaurantId, name: RestaurantName, menu: RestaurantMenu, final: bool)
    | RestaurantNotCreatedEvent(version: SchemaVersion, id: RestaurantId, name: RestaurantName, menu: RestaurantMenu, reason: Reason, final: bool)
    | RestaurantMenuChangedEvent(version: SchemaVersion, id: RestaurantId, menu: RestaurantMenu, final: bool)
    | RestaurantMenuNotChangedEvent(version: SchemaVersion, id: RestaurantId, menu: RestaurantMenu, reason: Reason, final: bool)
    | RestaurantOrderPlacedEvent(version: SchemaVersion, id: RestaurantId, orderId: OrderId, menuItems: seq<MenuItem>, final: bool)
    | RestaurantOrderNotPlacedEvent(version: SchemaVersion, id: RestaurantId, orderId: OrderId, menuItems: seq<MenuItem>, reason: Reason, final: bool)
  {
    /** The negative-outcome events: exactly the variants that carry a `reason`. */
    predicate IsRejection()
    {
      RestaurantNotCreatedEvent? || RestaurantMenuNotChangedEvent? || RestaurantOrderNotPlacedEvent?
    }

    function Kind(): string
    {
      match this
      case RestaurantCreatedEvent(_, _, _, _, _) => "RestaurantCreatedEvent"
      case RestaurantNotCreatedEvent(_, _, _, _, _, _) => "RestaurantNotCreatedEvent"
      case RestaurantMenuChangedEvent(_, _, _, _) => "RestaurantMenuChangedEvent"
      case RestaurantMenuNotChangedEvent(_, _, _, _, _) => "RestaurantMenuNotChangedEvent"
      case RestaurantOrderPlacedEvent(_, _, _, _, _) => "RestaurantOrderPlacedEvent"
      case RestaurantOrderNotPlacedEvent(_, _, _, _, _, _) => "RestaurantOrderNotPlacedEvent"
    }
  }

  // ------------------------------------------------------------------------
  // Order
  // ------------------------------------------------------------------------

  datatype OrderCommand =
    | CreateOrderCommand(id: OrderId, restaurantId: RestaurantId, menuItems: seq<MenuItem>)
    | MarkOrderAsPreparedCommand(id: OrderId)
  {
    function Kind(): string
    {
      match this
      case CreateOrderCommand(_, _, _) => "CreateOrderCommand"
      case MarkOrderAsPreparedCommand(_) => "MarkOrderAsPreparedCommand"
    }
  }

  datatype OrderEvent =
    | OrderCreatedEvent(version: SchemaVersion, id: OrderId, restaurantId: RestaurantId, menuItems: seq<MenuItem>, final: bool)
    | OrderNotCreatedEvent(version: SchemaVersion, id: OrderId, restaurantId: RestaurantId, reason: Reason, menuItems: seq<MenuItem>, final: bool)
    | OrderPreparedEvent(version: SchemaVersion, id: OrderId, final: bool)
    | OrderNotPreparedEvent(version: SchemaVersion, id: OrderId, reason: Reason, final: bool)
  {
    /** The negative-outcome events: exactly the variants that carry a `reason`. */
    predicate IsRejection()
    {
      OrderNotCreatedEvent? || OrderNotPreparedEvent?
    }

    function Kind(): string
    {
      match this
      case OrderCreatedEvent(_, _, _, _, _) => "OrderCreatedEvent"
      case OrderNotCreatedEvent(_, _, _, _, _, _) => "OrderNotCreatedEvent"
      case OrderPreparedEvent(_, _, _) => "OrderPreparedEvent"
      case OrderNotPreparedEvent(_, _, _, _) => "OrderNotPreparedEvent"
    }
  }

  // ------------------------------------------------------------------------
  // All commands and all events
  // ------------------------------------------------------------------------

  /** `RestaurantCommand | OrderCommand`: the `decider` tag picks the sub-domain. */
  datatype Command = RestaurantCmd(restaurantCommand: RestaurantCommand) | OrderCmd(orderCommand: OrderCommand)
  {
    function DeciderTag(): (tag: string)
      ensures tag == "Restaurant" || tag == "Order"
    {
      if RestaurantCmd? then "Restaurant" else "Order"
    }

    /** The stream the command targets. */
    function Id(): string
    {
      match this
      case RestaurantCmd(c) => c.id
      case OrderCmd(c) => c.id
    }
  }

  /** `RestaurantEvent | OrderEvent`: the `decider` tag picks the sub-domain. */
  datatype Event = RestaurantEvt(restaurantEvent: RestaurantEvent) | OrderEvt(orderEvent: OrderEvent)
  {
    function DeciderTag(): (tag: string)
      ensures tag == "Restaurant" || tag == "Order"
    {
      if RestaurantEvt? then "Restaurant" else "Order"
    }

    /** The stream the event belongs to. */
    function Id(): string
    {
      match this
      case RestaurantEvt(e) => e.id
      case OrderEvt(e) => e.id
    }

    predicate IsRejection()
    {
      match this
      case RestaurantEvt(e) => e.IsRejection()
      case OrderEvt(e) => e.IsRejection()
    }
  }

  /** The `decider` tag alone tells which sub-domain a command belongs to. */
  lemma CommandTagDeterminesDomain(c: Command)
    ensures c.DeciderTag() == "Restaurant" <==> c.RestaurantCmd?
    ensures c.DeciderTag() == "Order" <==> c.OrderCmd?
  {
  }

  /** The `decider` tag alone tells which sub-domain an event belongs to. */
  lemma EventTagDeterminesDomain(e: Event)
    ensures e.DeciderTag() == "Restaurant" <==> e.RestaurantEvt?
    ensures e.DeciderTag() == "Order" <==> e.OrderEvt?
  {
  }

  /** Within the restaurant events the `kind` tag discriminates the variants: two events have the
      same `kind` exactly when they are built by the same constructor. */
  lemma RestaurantEventKindDiscriminates(a: RestaurantEvent, b: RestaurantEvent)
    ensures a.Kind() == b.Kind() <==>
              && (a.RestaurantCreatedEvent? <==> b.RestaurantCreatedEvent?)
              && (a.RestaurantNotCreatedEvent? <==> b.RestaurantNotCreatedEvent?)
              && (a.RestaurantMenuChangedEvent? <==> b.RestaurantMenuChangedEvent?)
              && (a.RestaurantMenuNotChangedEvent? <==> b.RestaurantMenuNotChangedEvent?)
              && (a.RestaurantOrderPlacedEvent? <==> b.RestaurantOrderPlacedEvent?)
              && (a.RestaurantOrderNotPlacedEvent? <==> b.RestaurantOrderNotPlacedEvent?)
    ensures a.Kind() == b.Kind() ==> a.IsRejection() == b.IsRejection()
  {
  }

  /** Within the order events the `kind` tag discriminates the variants. */
  lemma OrderEventKindDiscriminates(a: OrderEvent, b: OrderEvent)
    ensures a.Kind() == b.Kind() <==>
              && (a.OrderCreatedEvent? <==> b.OrderCreatedEvent?)
              && (a.OrderNotCreatedEvent? <==> b.OrderNotCreatedEvent?)
              && (a.OrderPreparedEvent? <==> b.OrderPreparedEvent?)
              && (a.OrderNotPreparedEvent? <==> b.OrderNotPreparedEvent?)
    ensures a.Kind() == b.Kind() ==> a.IsRejection() == b.IsRejection()
  {
  }

  /** Within the restaurant commands the `kind` tag discriminates the variants. */
  lemma RestaurantCommandKindDiscriminates(a: RestaurantCommand, b: RestaurantCommand)
    ensures a.Kind() == b.Kind() <==>
              && (a.CreateRestaurantCommand? <==> b.CreateRestaurantCommand?)
              && (a.ChangeRestaurantMenuCommand? <==> b.ChangeRestaurantMenuCommand?)
              && (a.PlaceOrderCommand? <==> b.PlaceOrderCommand?)
  {
  }

  /** Within the order commands the `kind` tag discriminates the variants. */
  lemma OrderCommandKindDiscriminates(a: OrderCommand, b: OrderCommand)
    ensures a.Kind() == b.Kind() <==>
              && (a.CreateOrderCommand? <==> b.CreateOrderCommand?)
              && (a.MarkOrderAsPreparedCommand? <==> b.MarkOrderAsPreparedCommand?)
  {
  }
}
